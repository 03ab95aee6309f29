/** Receivers of one benchmark listener (voice-mesh-bench/src/main.rs): allocation, retirement, pooling and the statistics
    carried out of them. */
module ReceiverPool {
  import opened Arithmetic
  import opened Packet
  import opened Sequences

  const U64_MAX: nat := 0xFFFF_FFFF_FFFF_FFFF

  datatype Policy = Retire | Pool

  datatype Metric = Concealed | Events | Silent | Late | Inserted | Removed | Failures

  /** Lifetime counters of a receiver, or totals of them. */
  datatype Counters = Counters(concealed: nat, events: nat, silent: nat, late: nat, inserted: nat, removed: nat)

  const ZERO := Counters(0, 0, 0, 0, 0, 0)

  /** A receiver with its lifetime counters, and what has been carried into the totals so far. */
  datatype Slot = Slot(lifetime: Counters, failed: bool, reported: Counters, reportedFailure: bool)

  datatype Totals = Totals(counters: Counters, failures: nat)

  function Count(c: Counters, failed: nat, m: Metric): nat {
    match m
    case Concealed => c.concealed
    case Events => c.events
    case Silent => c.silent
    case Late => c.late
    case Inserted => c.inserted
    case Removed => c.removed
    case Failures => failed
  }

  function OneIf(b: bool): nat { if b then 1 else 0 }

  function Life(m: Metric): Slot -> nat { (s: Slot) => Count(s.lifetime, OneIf(s.failed), m) }

  function Reported(m: Metric): Slot -> nat { (s: Slot) => Count(s.reported, OneIf(s.reportedFailure), m) }

  function Unreported(m: Metric): Slot -> nat { (s: Slot) => SatSub(Life(m)(s), Reported(m)(s)) }

  function Total(t: Totals, m: Metric): nat { Count(t.counters, t.failures, m) }

  function SatAdd(a: nat, b: nat): nat { if a + b > U64_MAX then U64_MAX else a + b }

  function Carry(total: nat, lifetime: nat, reported: nat): nat { SatAdd(total, SatSub(lifetime, reported)) }

  /** `collect_receiver_totals`. */
  function Collect(s: Slot, t: Totals): (Slot, Totals) {
    (s.(reported := s.lifetime, reportedFailure := s.reportedFailure || s.failed),
     Totals(
       Counters(
         Carry(t.counters.concealed, s.lifetime.concealed, s.reported.concealed),
         Carry(t.counters.events, s.lifetime.events, s.reported.events),
         Carry(t.counters.silent, s.lifetime.silent, s.reported.silent),
         Carry(t.counters.late, s.lifetime.late, s.reported.late),
         Carry(t.counters.inserted, s.lifetime.inserted, s.reported.inserted),
         Carry(t.counters.removed, s.lifetime.removed, s.reported.removed)),
       if s.failed && !s.reportedFailure then t.failures + 1 else t.failures))
  }

  function Of(slot: Option<Slot>, f: Slot -> nat): nat {
    if slot.Some? then f(slot.value) else 0
  }

  function SumSome(slots: seq<Option<Slot>>, f: Slot -> nat): nat {
    if slots == [] then 0 else SumSome(slots[..|slots| - 1], f) + Of(slots[|slots| - 1], f)
  }

  function One(): Slot -> nat { (s: Slot) => 1 }

  lemma {:induction false} SumSomeUpdate(slots: seq<Option<Slot>>, i: nat, slot: Option<Slot>, f: Slot -> nat)
    requires i < |slots|
    ensures SumSome(slots[i := slot], f) + Of(slots[i], f) == SumSome(slots, f) + Of(slot, f)
  {
    var last := |slots| - 1;
    if i < last {
      SumSomeUpdate(slots[..last], i, slot, f);
      assert slots[i := slot][..last] == slots[..last][i := slot];
    } else {
      assert slots[i := slot][..last] == slots[..last];
    }
  }

  /** No receiver has had more carried out than it has counted. */
  predicate Sound(s: Slot) {
    && s.reported.concealed <= s.lifetime.concealed && s.reported.events <= s.lifetime.events
    && s.reported.silent <= s.lifetime.silent && s.reported.late <= s.lifetime.late
    && s.reported.inserted <= s.lifetime.inserted && s.reported.removed <= s.lifetime.removed
    && (s.reportedFailure ==> s.failed)
  }

  predicate AllSound(slots: seq<Slot>) { forall i :: 0 <= i < |slots| ==> Sound(slots[i]) }

  predicate AllSomeSound(slots: seq<Option<Slot>>) {
    forall i :: 0 <= i < |slots| && slots[i].Some? ==> Sound(slots[i].value)
  }

  lemma SoundMetric(s: Slot, m: Metric)
    requires Sound(s)
    ensures Reported(m)(s) <= Life(m)(s) && Unreported(m)(s) == Life(m)(s) - Reported(m)(s)
  {
  }

  lemma CollectMetric(s: Slot, t: Totals, m: Metric)
    requires Sound(s) && Total(t, m) + Unreported(m)(s) <= U64_MAX
    ensures var (s', t') := Collect(s, t);
            && Sound(s') && Life(m)(s') == Life(m)(s) && Reported(m)(s') == Life(m)(s)
            && Total(t', m) == Total(t, m) + Life(m)(s) - Reported(m)(s)
  {
  }

  lemma {:induction false} UnreportedSum(slots: seq<Slot>, m: Metric)
    requires AllSound(slots)
    ensures Sum(slots, Unreported(m)) + Sum(slots, Reported(m)) == Sum(slots, Life(m))
  {
    if slots != [] {
      UnreportedSum(slots[..|slots| - 1], m);
      SoundMetric(slots[|slots| - 1], m);
    }
  }

  lemma {:induction false} UnreportedSumSome(slots: seq<Option<Slot>>, m: Metric)
    requires AllSomeSound(slots)
    ensures SumSome(slots, Unreported(m)) + SumSome(slots, Reported(m)) == SumSome(slots, Life(m))
  {
    if slots != [] {
      UnreportedSumSome(slots[..|slots| - 1], m);
      if slots[|slots| - 1].Some? {
        SoundMetric(slots[|slots| - 1].value, m);
      }
    }
  }

  lemma {:induction false} PartOfSum(slots: seq<Option<Slot>>, i: nat, f: Slot -> nat)
    requires i < |slots|
    ensures Of(slots[i], f) <= SumSome(slots, f)
  {
    if i < |slots| - 1 {
      PartOfSum(slots[..|slots| - 1], i, f);
    }
  }

  /** Everything the accounting depends on; `dropped` are the receivers discarded under the retire policy. */
  datatype Books = Books(
    receivers: seq<Option<Slot>>, pool: seq<Slot>, dropped: seq<Slot>, totals: Totals,
    creations: nat, reuses: nat, retirements: nat)
  {
    function Active(): nat { SumSome(receivers, One()) }

    function Lifetimes(m: Metric): nat { SumSome(receivers, Life(m)) + Sum(pool, Life(m)) + Sum(dropped, Life(m)) }

    /** Every receiver ever created is active, pooled or dropped; every allocation was a creation or a reuse and is still
        active or has been retired. */
    predicate Tallied() {
      && creations == Active() + |pool| + |dropped|
      && creations + reuses == Active() + retirements
    }

    predicate AllSlotsSound() { AllSomeSound(receivers) && AllSound(pool) && AllSound(dropped) }

    predicate Carried(m: Metric) {
      && Total(totals, m) == SumSome(receivers, Reported(m)) + Sum(pool, Reported(m)) + Sum(dropped, Reported(m))
      && Sum(dropped, Reported(m)) == Sum(dropped, Life(m))
      && Lifetimes(m) <= U64_MAX
    }

    predicate Balanced() { AllSlotsSound() && forall m: Metric :: Carried(m) }
  }

  /** Running totals plus what live and pooled receivers have not reported yet are the lifetime counters of every receiver
      ever created. */
  lemma ExactlyOnce(b: Books, m: Metric)
    requires b.Balanced()
    ensures Total(b.totals, m) + SumSome(b.receivers, Unreported(m)) + Sum(b.pool, Unreported(m)) == b.Lifetimes(m)
  {
    assert b.Carried(m);
    hide Sum, SumSome, Life, Reported, Unreported, Total;
    UnreportedSumSome(b.receivers, m);
    UnreportedSum(b.pool, m);
  }

  function Retired(b: Books, speaker: nat, policy: Policy): Books
    requires speaker < |b.receivers| && b.receivers[speaker].Some?
  {
    var (slot, totals) := Collect(b.receivers[speaker].value, b.totals);
    var next := b.(receivers := b.receivers[speaker := None], totals := totals, retirements := b.retirements + 1);
    if policy.Pool? then next.(pool := b.pool + [slot]) else next.(dropped := b.dropped + [slot])
  }

  lemma RetiredCarries(b: Books, speaker: nat, policy: Policy, m: Metric)
    requires speaker < |b.receivers| && b.receivers[speaker].Some? && b.Balanced()
    ensures Retired(b, speaker, policy).Carried(m)
    ensures Retired(b, speaker, policy).Lifetimes(m) == b.Lifetimes(m)
  {
    hide Sum, SumSome, Life, Reported, Unreported, Total, Collect, Retired, Books.Balanced;
    RetiringFits(b, speaker, m);
    CollectMetric(b.receivers[speaker].value, b.totals, m);
    RetiredSums(b, speaker, policy, Life(m));
    RetiredSums(b, speaker, policy, Reported(m));
  }

  /** What a receiver has not reported fits into the totals. */
  lemma RetiringFits(b: Books, speaker: nat, m: Metric)
    requires speaker < |b.receivers| && b.receivers[speaker].Some? && b.Balanced()
    ensures b.Carried(m) && Sound(b.receivers[speaker].value)
    ensures Total(b.totals, m) + Unreported(m)(b.receivers[speaker].value) <= U64_MAX
  {
    hide Sum, SumSome, Life, Reported, Unreported, Total;
    assert b.Carried(m) && Sound(b.receivers[speaker].value);
    UnreportedSumSome(b.receivers, m);
    UnreportedSum(b.pool, m);
    PartOfSum(b.receivers, speaker, Unreported(m));
  }

  lemma RetiredSums(b: Books, speaker: nat, policy: Policy, f: Slot -> nat)
    requires speaker < |b.receivers| && b.receivers[speaker].Some?
    ensures var r, collected := Retired(b, speaker, policy), Collect(b.receivers[speaker].value, b.totals);
            && r.totals == collected.1
            && SumSome(r.receivers, f) + f(b.receivers[speaker].value) == SumSome(b.receivers, f)
            && Sum(r.pool, f) == Sum(b.pool, f) + (if policy.Pool? then f(collected.0) else 0)
            && Sum(r.dropped, f) == Sum(b.dropped, f) + (if policy.Pool? then 0 else f(collected.0))
  {
    hide Sum, SumSome, Collect;
    SumSomeUpdate(b.receivers, speaker, None, f);
    SumNext(b.pool, Collect(b.receivers[speaker].value, b.totals).0, f);
    SumNext(b.dropped, Collect(b.receivers[speaker].value, b.totals).0, f);
  }

  lemma RetiredStaysBalanced(b: Books, speaker: nat, policy: Policy)
    requires speaker < |b.receivers| && b.receivers[speaker].Some? && b.Balanced()
    ensures Retired(b, speaker, policy).Balanced()
    ensures forall m: Metric :: Retired(b, speaker, policy).Lifetimes(m) == b.Lifetimes(m)
  {
    forall m: Metric
      ensures Retired(b, speaker, policy).Carried(m)
      ensures Retired(b, speaker, policy).Lifetimes(m) == b.Lifetimes(m)
    {
      RetiredCarries(b, speaker, policy, m);
    }
    hide Sum, SumSome, Life, Reported, Unreported, Total;
  }

  lemma RetiredStaysTallied(b: Books, speaker: nat, policy: Policy)
    requires speaker < |b.receivers| && b.receivers[speaker].Some? && b.Tallied()
    ensures Retired(b, speaker, policy).Tallied() && Retired(b, speaker, policy).Active() == b.Active() - 1
  {
    hide Collect;
    SumSomeUpdate(b.receivers, speaker, None, One());
  }

  const NEW_SLOT := Slot(ZERO, false, ZERO, false)

  /** The receiver given to a speaker whose first accepted packet arrives: pooled if one is waiting, else new. */
  function Allocated(b: Books, speaker: nat): Books
    requires speaker < |b.receivers| && b.receivers[speaker].None?
  {
    if b.pool != [] then
      var last := |b.pool| - 1;
      b.(receivers := b.receivers[speaker := Some(b.pool[last])], pool := b.pool[..last], reuses := b.reuses + 1)
    else b.(receivers := b.receivers[speaker := Some(NEW_SLOT)], creations := b.creations + 1)
  }

  lemma AllocatedSums(b: Books, speaker: nat, f: Slot -> nat)
    requires speaker < |b.receivers| && b.receivers[speaker].None?
    ensures var a := Allocated(b, speaker);
            && a.dropped == b.dropped && a.totals == b.totals
            && SumSome(a.receivers, f) + Sum(a.pool, f)
               == SumSome(b.receivers, f) + Sum(b.pool, f) + (if b.pool == [] then f(NEW_SLOT) else 0)
            && SumSome(a.receivers, f) >= SumSome(b.receivers, f)
  {
    hide Sum, SumSome;
    var slot := if b.pool != [] then b.pool[|b.pool| - 1] else NEW_SLOT;
    SumSomeUpdate(b.receivers, speaker, Some(slot), f);
    if b.pool != [] {
      SumNext(b.pool[..|b.pool| - 1], slot, f);
      assert b.pool[..|b.pool| - 1] + [slot] == b.pool;
    }
  }

  lemma NewSlotIsEmpty(m: Metric)
    ensures Life(m)(NEW_SLOT) == 0 && Reported(m)(NEW_SLOT) == 0 && Sound(NEW_SLOT)
  {
  }

  lemma AllocatedLifetimes(b: Books, speaker: nat, m: Metric)
    requires speaker < |b.receivers| && b.receivers[speaker].None?
    ensures Allocated(b, speaker).Lifetimes(m) == b.Lifetimes(m)
    ensures b.Carried(m) ==> Allocated(b, speaker).Carried(m)
  {
    hide Sum, SumSome, Life, Reported, Total, Allocated;
    AllocatedSums(b, speaker, Life(m));
    AllocatedSums(b, speaker, Reported(m));
    NewSlotIsEmpty(m);
  }

  lemma AllocatedTally(b: Books, speaker: nat)
    requires speaker < |b.receivers| && b.receivers[speaker].None? && b.Tallied()
    ensures Allocated(b, speaker).Tallied() && Allocated(b, speaker).Active() == b.Active() + 1
  {
    hide SumSome;
    SumSomeUpdate(b.receivers, speaker, Allocated(b, speaker).receivers[speaker], One());
  }

  lemma AllocatedSound(b: Books, speaker: nat)
    requires speaker < |b.receivers| && b.receivers[speaker].None? && b.AllSlotsSound()
    ensures Allocated(b, speaker).AllSlotsSound()
  {
    NewSlotIsEmpty(Concealed);
    hide Sound;
  }

  lemma AllocatedKeeps(b: Books, speaker: nat)
    requires speaker < |b.receivers| && b.receivers[speaker].None? && b.Balanced() && b.Tallied()
    ensures Allocated(b, speaker).Balanced() && Allocated(b, speaker).Tallied()
    ensures Allocated(b, speaker).Active() == b.Active() + 1
    ensures forall m :: Allocated(b, speaker).Lifetimes(m) == b.Lifetimes(m)
  {
    AllocatedTally(b, speaker);
    AllocatedSound(b, speaker);
    forall m: Metric
      ensures Allocated(b, speaker).Carried(m) && Allocated(b, speaker).Lifetimes(m) == b.Lifetimes(m)
    {
      assert b.Carried(m);
      AllocatedLifetimes(b, speaker, m);
    }
    hide Allocated, Books.Carried, Books.Lifetimes, Books.Tallied, Books.Active;
  }

  /** Under the pool policy the receiver retired last is the next one given out, with everything it has counted. */
  lemma PooledReceiverReturns(b: Books, from: nat, to: nat)
    requires from < |b.receivers| && b.receivers[from].Some?
    requires to < |b.receivers| && (to == from || b.receivers[to].None?)
    ensures var r := Allocated(Retired(b, from, Pool), to);
            && r.pool == b.pool && r.creations == b.creations && r.reuses == b.reuses + 1
            && r.receivers[to].Some? && r.receivers[to].value.lifetime == b.receivers[from].value.lifetime
            && (to != from ==> r.receivers[from].None?)
  {
  }

  /** What a receiver counted while it was given a packet or pulled. */
  datatype Growth = Growth(speaker: nat, counted: Counters, failed: bool)

  function Amount(g: Growth, m: Metric): nat { Count(g.counted, OneIf(g.failed), m) }

  function Plus(a: Counters, b: Counters): Counters {
    Counters(a.concealed + b.concealed, a.events + b.events, a.silent + b.silent, a.late + b.late,
             a.inserted + b.inserted, a.removed + b.removed)
  }

  function Grown(s: Slot, g: Growth): Slot {
    s.(lifetime := Plus(s.lifetime, g.counted), failed := s.failed || g.failed)
  }

  /** Counters only grow, and only those of a live receiver. */
  function Worked(b: Books, g: Growth): Books {
    if g.speaker < |b.receivers| && b.receivers[g.speaker].Some? then
      b.(receivers := b.receivers[g.speaker := Some(Grown(b.receivers[g.speaker].value, g))])
    else b
  }

  lemma GrownMetric(s: Slot, g: Growth, m: Metric)
    requires Sound(s)
    ensures Sound(Grown(s, g)) && Reported(m)(Grown(s, g)) == Reported(m)(s)
    ensures Life(m)(s) <= Life(m)(Grown(s, g)) <= Life(m)(s) + Amount(g, m)
  {
  }

  lemma WorkedKeeps(b: Books, g: Growth)
    requires b.Balanced() && b.Tallied()
    requires forall m: Metric :: b.Lifetimes(m) + Amount(g, m) <= U64_MAX
    ensures Worked(b, g).Balanced() && Worked(b, g).Tallied() && Worked(b, g).Active() == b.Active()
    ensures forall m: Metric :: Worked(b, g).Lifetimes(m) <= b.Lifetimes(m) + Amount(g, m)
  {
    if g.speaker < |b.receivers| && b.receivers[g.speaker].Some? {
      hide Sum, SumSome, Life, Reported, Total, Amount, Grown;
      var slot := b.receivers[g.speaker].value;
      SumSomeUpdate(b.receivers, g.speaker, Some(Grown(slot, g)), One());
      forall m: Metric
        ensures Worked(b, g).Carried(m) && Worked(b, g).Lifetimes(m) <= b.Lifetimes(m) + Amount(g, m)
      {
        assert b.Carried(m) && b.Lifetimes(m) + Amount(g, m) <= U64_MAX;
        GrownMetric(slot, g, m);
        SumSomeUpdate(b.receivers, g.speaker, Some(Grown(slot, g)), Reported(m));
        SumSomeUpdate(b.receivers, g.speaker, Some(Grown(slot, g)), Life(m));
      }
      GrownMetric(slot, g, Concealed);
    }
  }

  /** The first `n` speakers compared with the new interest: receivers of no further interest are retired, in order. */
  function Unsubscribed(b: Books, active: seq<bool>, interested: seq<bool>, policy: Policy, n: nat): (books: Books)
    requires n <= |b.receivers| == |active| == |interested|
    ensures |books.receivers| == |b.receivers|
  {
    if n == 0 then b
    else
      var before := Unsubscribed(b, active, interested, policy, n - 1);
      if active[n - 1] && !interested[n - 1] && before.receivers[n - 1].Some? then Retired(before, n - 1, policy) else before
  }

  /** Accepted packets, in order: a speaker without a receiver is given one, and the receiver counts what the packet makes
      it count. */
  function Served(b: Books, packets: seq<Growth>): (served: Books)
    ensures |served.receivers| == |b.receivers|
  {
    if packets == [] then b
    else
      var before, p := Served(b, packets[..|packets| - 1]), packets[|packets| - 1];
      var given := if p.speaker < |before.receivers| && before.receivers[p.speaker].None? then Allocated(before, p.speaker)
                   else before;
      Worked(given, p)
  }

  function WorkedAll(b: Books, work: seq<Growth>): (books: Books)
    ensures |books.receivers| == |b.receivers|
  {
    if work == [] then b else Worked(WorkedAll(b, work[..|work| - 1]), work[|work| - 1])
  }

  /** The speakers that have a receiver. */
  function Holders(receivers: seq<Option<Slot>>): set<nat> {
    set i: nat | i < |receivers| && receivers[i].Some?
  }

  function Speakers(packets: seq<Growth>): (speakers: set<nat>) {
    if packets == [] then {} else Speakers(packets[..|packets| - 1]) + {packets[|packets| - 1].speaker}
  }

  lemma {:induction false} SpeakersAre(packets: seq<Growth>, speaker: nat)
    ensures speaker in Speakers(packets) <==> exists i :: 0 <= i < |packets| && packets[i].speaker == speaker
  {
    if packets != [] {
      var last := |packets| - 1;
      SpeakersAre(packets[..last], speaker);
      if exists i :: 0 <= i < |packets| && packets[i].speaker == speaker {
        var i :| 0 <= i < |packets| && packets[i].speaker == speaker;
        assert i < last ==> packets[..last][i].speaker == speaker;
      }
      if exists i :: 0 <= i < last && packets[..last][i].speaker == speaker {
        var i :| 0 <= i < last && packets[..last][i].speaker == speaker;
        assert packets[i].speaker == speaker;
      }
    }
  }

  lemma {:induction false} ActiveIsHolders(receivers: seq<Option<Slot>>)
    ensures SumSome(receivers, One()) == |Holders(receivers)|
  {
    if receivers != [] {
      var last := |receivers| - 1;
      ActiveIsHolders(receivers[..last]);
      assert Holders(receivers) == Holders(receivers[..last]) + (if receivers[last].Some? then {last} else {});
    }
  }

  lemma AllocatedHolds(b: Books, speaker: nat)
    requires speaker < |b.receivers| && b.receivers[speaker].None?
    ensures var a := Allocated(b, speaker);
            && Holders(a.receivers) == Holders(b.receivers) + {speaker}
            && a.creations + a.reuses == b.creations + b.reuses + 1
            && a.reuses == b.reuses + Min(1, |b.pool|) && |a.pool| == |b.pool| - Min(1, |b.pool|)
  {
  }

  lemma WorkedHolds(b: Books, g: Growth)
    ensures var w := Worked(b, g);
            && Holders(w.receivers) == Holders(b.receivers) && w.pool == b.pool
            && w.creations == b.creations && w.reuses == b.reuses && w.retirements == b.retirements
  {
    hide Grown;
  }

  /** Accepted packets give exactly their speakers a receiver: allocations are the speakers that had none, and as many of
      them as there were pooled receivers are reuses. */
  lemma {:induction false} ServedHolds(b: Books, packets: seq<Growth>)
    requires forall i :: 0 <= i < |packets| ==> packets[i].speaker < |b.receivers|
    ensures var served, newcomers := Served(b, packets), |Speakers(packets) - Holders(b.receivers)|;
            && Holders(served.receivers) == Holders(b.receivers) + Speakers(packets)
            && served.creations + served.reuses == b.creations + b.reuses + newcomers
            && served.reuses == b.reuses + Min(newcomers, |b.pool|)
            && |served.pool| == |b.pool| - Min(newcomers, |b.pool|)
            && served.retirements == b.retirements
  {
    hide Served, Holders, Speakers, Allocated, Worked;
    if packets == [] {
      NoneServed(b);
    } else {
      var front, p := packets[..|packets| - 1], packets[|packets| - 1];
      ServedHolds(b, front);
      NextServed(b, packets);
      SpeakersNext(packets);
      NextHolds(Served(b, front), p);
      Newcomers(Holders(b.receivers), Speakers(front), p.speaker);
    }
  }

  lemma Newcomers(holders: set<nat>, speakers: set<nat>, speaker: nat)
    ensures |speakers + {speaker} - holders| == |speakers - holders| + (if speaker in holders + speakers then 0 else 1)
    ensures holders + (speakers + {speaker}) == holders + speakers + {speaker}
  {
    if speaker in holders + speakers {
      assert speakers + {speaker} - holders == speakers - holders;
    } else {
      assert speakers + {speaker} - holders == speakers - holders + {speaker};
    }
  }

  /** One accepted packet. */
  lemma NextHolds(b: Books, p: Growth)
    requires p.speaker < |b.receivers|
    ensures var given := if b.receivers[p.speaker].None? then Allocated(b, p.speaker) else b;
            var next, added := Worked(given, p), if p.speaker in Holders(b.receivers) then 0 else 1;
            && Holders(next.receivers) == Holders(b.receivers) + {p.speaker}
            && next.creations + next.reuses == b.creations + b.reuses + added
            && next.reuses == b.reuses + Min(added, |b.pool|) && |next.pool| == |b.pool| - Min(added, |b.pool|)
            && next.retirements == b.retirements
  {
    hide Holders, Allocated, Worked;
    HoldersAre(b.receivers, p.speaker);
    var given := if b.receivers[p.speaker].None? then Allocated(b, p.speaker) else b;
    WorkedHolds(given, p);
    if b.receivers[p.speaker].None? {
      AllocatedHolds(b, p.speaker);
      AllocatedRetires(b, p.speaker);
    }
  }

  lemma ServedOutcome(b: Books, packets: seq<Growth>)
    requires forall i :: 0 <= i < |packets| ==> packets[i].speaker < |b.receivers|
    ensures var served, newcomers := Served(b, packets), |Speakers(packets) - Holders(b.receivers)|;
            && Holders(served.receivers) == Holders(b.receivers) + Speakers(packets)
            && served.creations + served.reuses == b.creations + b.reuses + newcomers
            && served.reuses == b.reuses + Min(newcomers, |b.pool|)
            && forall m: Metric :: !m.Failures? ==> served.Lifetimes(m) == b.Lifetimes(m) + AmountSum(packets, m)
  {
    ServedHolds(b, packets);
    forall m: Metric | !m.Failures? ensures Served(b, packets).Lifetimes(m) == b.Lifetimes(m) + AmountSum(packets, m) {
      ServedGains(b, packets, m);
    }
  }

  lemma AllocatedRetires(b: Books, speaker: nat)
    requires speaker < |b.receivers| && b.receivers[speaker].None?
    ensures Allocated(b, speaker).retirements == b.retirements
  {
  }

  lemma NextServed(b: Books, packets: seq<Growth>)
    requires packets != [] && packets[|packets| - 1].speaker < |b.receivers|
    ensures var before, p := Served(b, packets[..|packets| - 1]), packets[|packets| - 1];
            var given := if before.receivers[p.speaker].None? then Allocated(before, p.speaker) else before;
            Served(b, packets) == Worked(given, p)
  {
    hide Allocated, Worked;
  }

  lemma NoneServed(b: Books)
    ensures Served(b, []) == b && Speakers([]) == {}
  {
  }

  lemma HoldersAre(receivers: seq<Option<Slot>>, speaker: nat)
    requires speaker < |receivers|
    ensures speaker in Holders(receivers) <==> receivers[speaker].Some?
  {
  }

  lemma HoldersUpdate(receivers: seq<Option<Slot>>, i: nat, slot: Slot)
    requires i < |receivers| && receivers[i].Some?
    ensures Holders(receivers[i := Some(slot)]) == Holders(receivers)
  {
  }

  lemma SpeakersNext(packets: seq<Growth>)
    requires packets != []
    ensures Speakers(packets) == Speakers(packets[..|packets| - 1]) + {packets[|packets| - 1].speaker}
  {
  }

  /** What a piece of work adds to the lifetime counters: all of it, if its speaker has a receiver, and a failure only the
      first time. */
  lemma WorkedGains(b: Books, g: Growth, m: Metric)
    ensures var live := g.speaker in Holders(b.receivers);
            Worked(b, g).Lifetimes(m) == b.Lifetimes(m)
            + if !live then 0
              else if m.Failures? then OneIf(g.failed && !b.receivers[g.speaker].value.failed)
              else Amount(g, m)
  {
    if g.speaker in Holders(b.receivers) {
      hide Sum, SumSome;
      SumSomeUpdate(b.receivers, g.speaker, Some(Grown(b.receivers[g.speaker].value, g)), Life(m));
    }
  }

  /** Every accepted packet is counted by a receiver. */
  lemma {:induction false} ServedGains(b: Books, packets: seq<Growth>, m: Metric)
    requires !m.Failures? && forall i :: 0 <= i < |packets| ==> packets[i].speaker < |b.receivers|
    ensures Served(b, packets).Lifetimes(m) == b.Lifetimes(m) + AmountSum(packets, m)
  {
    if packets != [] {
      var front, p := packets[..|packets| - 1], packets[|packets| - 1];
      ServedGains(b, front, m);
      NextServed(b, packets);
      var before := Served(b, front);
      hide Served, Allocated, Worked, Books.Lifetimes, Amount, Holders;
      var given := if before.receivers[p.speaker].None? then Allocated(before, p.speaker) else before;
      HoldersAre(before.receivers, p.speaker);
      if before.receivers[p.speaker].None? {
        AllocatedLifetimes(before, p.speaker, m);
        AllocatedHolds(before, p.speaker);
      }
      WorkedGains(given, p, m);
    }
  }

  /** The work of the speakers in `live`. */
  function LiveSum(work: seq<Growth>, live: set<nat>, m: Metric): nat {
    if work == [] then 0
    else
      var last := work[|work| - 1];
      LiveSum(work[..|work| - 1], live, m) + if last.speaker in live then Amount(last, m) else 0
  }

  /** Of the work done while pulling, exactly that of live receivers is counted. */
  lemma {:induction false} WorkedAllGains(b: Books, work: seq<Growth>, m: Metric)
    requires !m.Failures?
    ensures WorkedAll(b, work).Lifetimes(m) == b.Lifetimes(m) + LiveSum(work, Holders(b.receivers), m)
    ensures Holders(WorkedAll(b, work).receivers) == Holders(b.receivers) && WorkedAll(b, work).pool == b.pool
    ensures WorkedAll(b, work).creations == b.creations && WorkedAll(b, work).reuses == b.reuses
    ensures WorkedAll(b, work).retirements == b.retirements
  {
    if work != [] {
      WorkedAllGains(b, work[..|work| - 1], m);
      hide Worked, Books.Lifetimes, Amount, Holders;
      WorkedGains(WorkedAll(b, work[..|work| - 1]), work[|work| - 1], m);
      WorkedHolds(WorkedAll(b, work[..|work| - 1]), work[|work| - 1]);
    }
  }

  lemma RetiredHolds(b: Books, speaker: nat, policy: Policy, m: Metric)
    requires speaker < |b.receivers| && b.receivers[speaker].Some?
    ensures var r := Retired(b, speaker, policy);
            && Holders(r.receivers) == Holders(b.receivers) - {speaker}
            && r.creations == b.creations && r.reuses == b.reuses && r.Lifetimes(m) == b.Lifetimes(m)
  {
    RetiredSums(b, speaker, policy, Life(m));
    RetiredFrame(b, speaker, policy);
    KeepsLife(b.receivers[speaker].value, b.totals, m);
    hide Sum, SumSome, Collect, Retired, Life;
  }

  lemma KeepsLife(s: Slot, t: Totals, m: Metric)
    ensures Life(m)(Collect(s, t).0) == Life(m)(s)
  {
  }

  /** Losing interest takes the receiver away, and nothing else does. */
  function Keeping(holders: set<nat>, active: seq<bool>, interested: seq<bool>, n: nat): set<nat>
    requires n <= |active| == |interested|
  {
    set sp | sp in holders && !(sp < n && active[sp] && !interested[sp])
  }

  lemma {:induction false} UnsubscribedHolds(
    b: Books, active: seq<bool>, interested: seq<bool>, policy: Policy, n: nat, m: Metric)
    requires n <= |b.receivers| == |active| == |interested|
    ensures var u := Unsubscribed(b, active, interested, policy, n);
            && Holders(u.receivers) == Keeping(Holders(b.receivers), active, interested, n)
            && u.creations == b.creations && u.reuses == b.reuses && u.Lifetimes(m) == b.Lifetimes(m)
  {
    if n == 0 {
      assert Keeping(Holders(b.receivers), active, interested, 0) == Holders(b.receivers);
    } else {
      UnsubscribedHolds(b, active, interested, policy, n - 1, m);
      var before := Unsubscribed(b, active, interested, policy, n - 1);
      hide Retired, Books.Lifetimes, Unsubscribed;
      UnsubscribedNext(b, active, interested, policy, n);
      KeepingNext(Holders(b.receivers), active, interested, n);
      HoldersAre(before.receivers, n - 1);
      hide Keeping, Holders;
      if active[n - 1] && !interested[n - 1] && before.receivers[n - 1].Some? {
        RetiredHolds(before, n - 1, policy, m);
      }
    }
  }

  lemma KeepingNext(holders: set<nat>, active: seq<bool>, interested: seq<bool>, n: nat)
    requires 0 < n <= |active| == |interested|
    ensures Keeping(holders, active, interested, n) ==
            Keeping(holders, active, interested, n - 1) - (if active[n - 1] && !interested[n - 1] then {n - 1} else {})
  {
  }

  lemma UnsubscribedNext(b: Books, active: seq<bool>, interested: seq<bool>, policy: Policy, n: nat)
    requires 0 < n <= |b.receivers| == |active| == |interested|
    ensures var before := Unsubscribed(b, active, interested, policy, n - 1);
            Unsubscribed(b, active, interested, policy, n)
            == if active[n - 1] && !interested[n - 1] && before.receivers[n - 1].Some? then Retired(before, n - 1, policy)
               else before
  {
    hide Retired;
  }

  /** The first `n` speakers have been compared with the new interest: those no longer of interest have no receiver. */
  predicate Synced(
    receivers: seq<Option<Slot>>, active: seq<bool>, interested: seq<bool>, n: nat,
    newReceivers: seq<Option<Slot>>, newActive: seq<bool>)
  {
    && |receivers| == |active| == |interested| == |newReceivers| == |newActive|
    && (forall i :: 0 <= i < |receivers| ==>
          newReceivers[i] == if i < n && active[i] && !interested[i] then None else receivers[i])
    && (forall i :: 0 <= i < |receivers| ==> newActive[i] == if i < n then interested[i] else active[i])
  }

  class Listener {
    const policy: Policy
    var receivers: seq<Option<Slot>>
    var interestActive: seq<bool>
    var pool: seq<Slot>
    var totals: Totals
    var creations: nat
    var reuses: nat
    var retirements: nat
    var maxConcurrent: nat
    ghost var dropped: seq<Slot>

    ghost function Ledger(): Books
      reads this
    {
      Books(receivers, pool, dropped, totals, creations, reuses, retirements)
    }

    ghost predicate Valid()
      reads this
    {
      && Ledger().Balanced() && Ledger().Tallied()
      && |interestActive| == |receivers|
      && (policy.Pool? ==> dropped == [])
      && (policy.Retire? ==> pool == [] && reuses == 0)
      && maxConcurrent <= creations
    }

    /** Under the pool policy a receiver is created only when all earlier ones are in use. */
    ghost predicate Peaked()
      reads this
    {
      policy.Pool? ==> creations <= Max(maxConcurrent, Ledger().Active())
    }

    constructor (policy: Policy, speakers: nat)
      ensures Valid() && Peaked() && |receivers| == speakers && this.policy == policy && creations == 0
      ensures forall m: Metric :: Ledger().Lifetimes(m) == 0
    {
      this.policy := policy;
      receivers, interestActive := seq(speakers, i => None), seq(speakers, i => false);
      pool, dropped, totals := [], [], Totals(ZERO, 0);
      creations, reuses, retirements, maxConcurrent := 0, 0, 0, 0;
      new;
      EmptyLedger(speakers, receivers);
    }

    method RetireSpeaker(speaker: nat)
      requires Valid() && speaker < |receivers| && receivers[speaker].Some?
      modifies this`receivers, this`pool, this`totals, this`retirements, this`dropped
      ensures Valid() && Ledger() == Retired(old(Ledger()), speaker, policy)
      ensures forall m: Metric :: Ledger().Lifetimes(m) == old(Ledger().Lifetimes(m))
    {
      RetiredStaysBalanced(Ledger(), speaker, policy);
      RetiredStaysTallied(Ledger(), speaker, policy);
      var slot := receivers[speaker].value;
      receivers := receivers[speaker := None];
      retirements := retirements + 1;
      var (collected, newTotals) := Collect(slot, totals);
      totals := newTotals;
      if policy.Pool? {
        pool := pool + [collected];
      } else {
        dropped := dropped + [collected];
      }
      assert Ledger() == Retired(old(Ledger()), speaker, policy);
    }

    /** A receiver is retired exactly when its speaker stops being of interest. */
    method SyncInterest(interested: seq<bool>)
      requires Valid() && |interested| == |receivers|
      modifies this
      ensures Valid() && interestActive == interested && |receivers| == |old(receivers)|
      ensures Synced(old(receivers), old(interestActive), interested, |receivers|, receivers, interestActive)
      ensures Ledger() == Unsubscribed(old(Ledger()), old(interestActive), interested, policy, |interested|)
      ensures maxConcurrent == old(maxConcurrent)
      ensures creations == old(creations) && reuses == old(reuses)
      ensures forall m: Metric :: Ledger().Lifetimes(m) == old(Ledger().Lifetimes(m))
    {
      hide Retired, Books.Balanced, Books.Tallied, Books.Lifetimes;
      for speaker := 0 to |receivers|
        invariant Valid() && |receivers| == |old(receivers)|
        invariant Synced(old(receivers), old(interestActive), interested, speaker, receivers, interestActive)
        invariant Ledger() == Unsubscribed(old(Ledger()), old(interestActive), interested, policy, speaker)
        invariant creations == old(creations) && reuses == old(reuses) && maxConcurrent == old(maxConcurrent)
        invariant forall m: Metric :: Ledger().Lifetimes(m) == old(Ledger().Lifetimes(m))
      {
        if !interested[speaker] && interestActive[speaker] {
          if receivers[speaker].Some? {
            RetiredFrame(Ledger(), speaker, policy);
            RetireSpeaker(speaker);
          }
        }
        interestActive := interestActive[speaker := interested[speaker]];
      }
      assert interestActive == interested;
    }

    /** The first accepted packet of a speaker takes a pooled receiver when there is one and creates one otherwise. */
    method AcceptPacket(speaker: nat)
      requires Valid() && Peaked() && speaker < |receivers|
      modifies this`receivers, this`pool, this`creations, this`reuses
      ensures Valid() && Peaked() && |receivers| == |old(receivers)|
      ensures Ledger() == if old(receivers)[speaker].Some? then old(Ledger()) else Allocated(old(Ledger()), speaker)
      ensures forall m: Metric :: Ledger().Lifetimes(m) == old(Ledger().Lifetimes(m))
    {
      if receivers[speaker].None? {
        AllocatedKeeps(Ledger(), speaker);
        ghost var before := Ledger();
        hide Books.Balanced, Books.Lifetimes, Books.Active;
        if policy.Pool? {
          if pool != [] {
            var reused := pool[|pool| - 1];
            pool := pool[..|pool| - 1];
            receivers := receivers[speaker := Some(reused)];
            reuses := reuses + 1;
          }
        }
        if receivers[speaker].None? {
          receivers := receivers[speaker := Some(NEW_SLOT)];
          creations := creations + 1;
        }
        assert Ledger() == Allocated(before, speaker);
      }
    }

    /** A receiver counts what a packet or a pull makes it count. */
    method Work(g: Growth)
      requires Valid() && Peaked() && forall m: Metric :: Ledger().Lifetimes(m) + Amount(g, m) <= U64_MAX
      modifies this`receivers
      ensures Valid() && Peaked() && |receivers| == |old(receivers)|
      ensures Ledger() == Worked(old(Ledger()), g)
      ensures forall m: Metric :: Ledger().Lifetimes(m) <= old(Ledger().Lifetimes(m)) + Amount(g, m)
    {
      hide Books.Balanced, Books.Tallied, Books.Lifetimes, Books.Active, Amount, Grown;
      WorkedKeeps(Ledger(), g);
      ghost var before := Ledger();
      if g.speaker < |receivers| && receivers[g.speaker].Some? {
        receivers := receivers[g.speaker := Some(Grown(receivers[g.speaker].value, g))];
      }
      assert Ledger() == Worked(before, g);
    }

    method DrainReceived(packets: seq<Growth>)
      requires Valid() && Peaked() && forall i :: 0 <= i < |packets| ==> packets[i].speaker < |receivers|
      requires forall m: Metric :: Ledger().Lifetimes(m) + AmountSum(packets, m) <= U64_MAX
      modifies this`receivers, this`pool, this`creations, this`reuses
      ensures Valid() && Peaked() && |receivers| == |old(receivers)|
      ensures Ledger() == Served(old(Ledger()), packets)
      ensures Holders(receivers) == Holders(old(receivers)) + Speakers(packets)
      ensures var newcomers := |Speakers(packets) - Holders(old(receivers))|;
              && creations + reuses == old(creations + reuses) + newcomers
              && reuses == old(reuses) + Min(newcomers, |old(pool)|)
      ensures forall m: Metric :: Ledger().Lifetimes(m) <= old(Ledger().Lifetimes(m)) + AmountSum(packets, m)
      ensures forall m: Metric :: !m.Failures? ==> Ledger().Lifetimes(m) == old(Ledger().Lifetimes(m)) + AmountSum(packets, m)
    {
      NoneServed(Ledger());
      assert packets[..0] == [];
      hide Allocated, Worked, Served, Amount, Books.Balanced, Books.Tallied, Books.Lifetimes, Holders, Speakers;
      for i := 0 to |packets|
        invariant Valid() && Peaked() && |receivers| == |old(receivers)|
        invariant Ledger() == Served(old(Ledger()), packets[..i])
        invariant forall m: Metric :: Ledger().Lifetimes(m) <= old(Ledger().Lifetimes(m)) + AmountSum(packets[..i], m)
      {
        assert packets[..i + 1][..i] == packets[..i];
        NextServed(old(Ledger()), packets[..i + 1]);
        AcceptPacket(packets[i].speaker);
        forall m: Metric
          ensures Ledger().Lifetimes(m) + Amount(packets[i], m) <= U64_MAX
          ensures AmountSum(packets[..i + 1], m) == AmountSum(packets[..i], m) + Amount(packets[i], m)
        {
          AmountPrefix(packets, i, m);
        }
        Work(packets[i]);
      }
      assert packets[..|packets|] == packets;
      ServedOutcome(old(Ledger()), packets);
    }

    /** The receivers work while they are pulled. */
    method PullReceivers(work: seq<Growth>)
      requires Valid() && Peaked() && forall m: Metric :: Ledger().Lifetimes(m) + AmountSum(work, m) <= U64_MAX
      modifies this`receivers
      ensures Valid() && Peaked() && |receivers| == |old(receivers)|
      ensures Ledger() == WorkedAll(old(Ledger()), work)
      ensures forall m: Metric :: Ledger().Lifetimes(m) <= old(Ledger().Lifetimes(m)) + AmountSum(work, m)
      ensures forall m: Metric :: !m.Failures? ==>
                Ledger().Lifetimes(m) == old(Ledger().Lifetimes(m)) + LiveSum(work, Holders(old(receivers)), m)
    {
      forall m: Metric | !m.Failures?
        ensures WorkedAll(Ledger(), work).Lifetimes(m) == Ledger().Lifetimes(m) + LiveSum(work, Holders(receivers), m)
      {
        WorkedAllGains(Ledger(), work, m);
      }
      hide Holders, LiveSum;
      hide Worked, Amount, Books.Balanced, Books.Tallied, Books.Lifetimes;
      for i := 0 to |work|
        invariant Valid() && Peaked() && |receivers| == |old(receivers)|
        invariant Ledger() == WorkedAll(old(Ledger()), work[..i])
        invariant forall m: Metric :: Ledger().Lifetimes(m) <= old(Ledger().Lifetimes(m)) + AmountSum(work[..i], m)
      {
        assert work[..i + 1][..i] == work[..i];
        forall m: Metric
          ensures Ledger().Lifetimes(m) + Amount(work[i], m) <= U64_MAX
          ensures AmountSum(work[..i + 1], m) == AmountSum(work[..i], m) + Amount(work[i], m)
        {
          AmountPrefix(work, i, m);
        }
        Work(work[i]);
      }
      assert work[..|work|] == work;
    }

    method RecordPeak()
      requires Valid() && Peaked()
      modifies this`maxConcurrent
      ensures Valid() && (policy.Pool? ==> creations == maxConcurrent)
      ensures maxConcurrent == Max(old(maxConcurrent), Ledger().Active())
    {
      var active := 0;
      for i := 0 to |receivers|
        invariant active == SumSome(receivers[..i], One())
      {
        assert receivers[..i + 1][..i] == receivers[..i];
        if receivers[i].Some? {
          active := active + 1;
        }
      }
      assert receivers[..|receivers|] == receivers;
      maxConcurrent := Max(maxConcurrent, active);
    }

    /** The concealment reported along the way is that of every receiver ever created. */
    method TimelineSample() returns (concealed: nat)
      requires Valid()
      ensures concealed == Ledger().Lifetimes(Concealed)
    {
      ExactlyOnce(Ledger(), Concealed);
      assert Ledger().Carried(Concealed);
      hide Books.Balanced, Books.Tallied, Books.Carried, Sound;
      concealed := totals.counters.concealed;
      ghost var carried := concealed;
      for i := 0 to |receivers|
        invariant concealed == carried + SumSome(receivers[..i], Unreported(Concealed))
      {
        PrefixSome(receivers, i, Unreported(Concealed));
        if receivers[i].Some? {
          var slot := receivers[i].value;
          concealed := SatAdd(concealed, SatSub(slot.lifetime.concealed, slot.reported.concealed));
        }
      }
      assert receivers[..|receivers|] == receivers;
      for i := 0 to |pool|
        invariant concealed == carried + SumSome(receivers, Unreported(Concealed)) + Sum(pool[..i], Unreported(Concealed))
      {
        Prefix(pool, i, Unreported(Concealed));
        concealed := SatAdd(concealed, SatSub(pool[i].lifetime.concealed, pool[i].reported.concealed));
      }
      assert pool[..|pool|] == pool;
    }

    /** The totals published at the end are the lifetime counters of every receiver ever created. */
    method CollectAll()
      requires Valid()
      modifies this`receivers, this`pool, this`totals
      ensures Ledger().Balanced() && Ledger().Tallied()
      ensures forall m: Metric :: Total(totals, m) == Ledger().Lifetimes(m) == old(Ledger().Lifetimes(m))
      ensures Holders(receivers) == Holders(old(receivers))
    {
      hide Books.Balanced, Books.Lifetimes, Books.Tallied, Collect, Sound, Holders;
      for i := 0 to |receivers|
        invariant Ledger().Balanced() && Ledger().Tallied() && |receivers| == |old(receivers)| && pool == old(pool)
        invariant Holders(receivers) == Holders(old(receivers))
        invariant forall m: Metric :: Ledger().Lifetimes(m) == old(Ledger().Lifetimes(m))
        invariant forall j :: 0 <= j < i && receivers[j].Some? ==> Settled(receivers[j].value)
      {
        if receivers[i].Some? {
          CollectedActive(Ledger(), i);
          var (slot, newTotals) := Collect(receivers[i].value, totals);
          HoldersUpdate(receivers, i, slot);
          receivers := receivers[i := Some(slot)];
          totals := newTotals;
        }
      }
      for i := 0 to |pool|
        invariant Ledger().Balanced() && Ledger().Tallied() && |pool| == |old(pool)|
        invariant Holders(receivers) == Holders(old(receivers))
        invariant forall m: Metric :: Ledger().Lifetimes(m) == old(Ledger().Lifetimes(m))
        invariant forall j :: 0 <= j < |receivers| && receivers[j].Some? ==> Settled(receivers[j].value)
        invariant forall j :: 0 <= j < i ==> Settled(pool[j])
      {
        CollectedPooled(Ledger(), i);
        var (slot, newTotals) := Collect(pool[i], totals);
        pool := pool[i := slot];
        totals := newTotals;
      }
      forall m: Metric ensures Total(totals, m) == Ledger().Lifetimes(m) {
        AllSettled(Ledger(), m);
      }
    }

    /** The callbacks, the drains of the grace period and the collection of the totals. */
    method RunCallbacks(callbacks: seq<Callback>, grace: seq<Growth>)
      requires Valid() && creations == 0 && maxConcurrent == 0
      requires forall m: Metric ::
                 Ledger().Lifetimes(m) == 0 && WorkSum(callbacks, m) + AmountSum(grace, m) <= U64_MAX
      requires forall i :: 0 <= i < |callbacks| ==> callbacks[i].Fits(|receivers|)
      requires forall i :: 0 <= i < |grace| ==> grace[i].speaker < |receivers|
      modifies this
      ensures policy.Pool? ==> creations == maxConcurrent
      ensures Ledger().Tallied()
      ensures var before := Lived(Life0(old(Ledger()), old(interestActive)), callbacks, policy);
              var end := Peaking(before, Served(before.books, grace), before.active);
              && Holders(receivers) == Holders(end.books.receivers) && maxConcurrent == end.peak
              && creations == end.books.creations
              && reuses == end.books.reuses && retirements == end.books.retirements
              && forall m: Metric :: Total(totals, m) == end.books.Lifetimes(m)
    {
      hide Books.Balanced, Books.Tallied, Books.Lifetimes, Books.Active, Served, Unsubscribed, WorkedAll;
      for i := 0 to |callbacks|
        invariant Valid() && (policy.Pool? ==> creations == maxConcurrent) && |receivers| == |old(receivers)|
        invariant Lifetime(Ledger(), interestActive, maxConcurrent)
                  == Lived(Life0(old(Ledger()), old(interestActive)), callbacks[..i], policy)
        invariant forall m: Metric :: Ledger().Lifetimes(m) <= WorkSum(callbacks[..i], m)
      {
        forall m: Metric
          ensures WorkSum(callbacks[..i + 1], m)
                  == WorkSum(callbacks[..i], m) + AmountSum(callbacks[i].accepted, m) + AmountSum(callbacks[i].work, m)
                  <= WorkSum(callbacks, m)
        {
          WorkPrefix(callbacks, i, m);
        }
        assert callbacks[..i + 1][..i] == callbacks[..i];
        SyncInterest(callbacks[i].interested);
        DrainReceived(callbacks[i].accepted);
        PullReceivers(callbacks[i].work);
        RecordPeak();
      }
      assert callbacks[..|callbacks|] == callbacks;
      DrainReceived(grace);
      RecordPeak();
      CollectAll() by {
        assert Valid();
      }
    }

    /** One listener from start to end, whatever interest, packets and work each callback brings: who has a receiver, how
        many were ever allocated and how many at most at once follow from interest and accepted packets alone, and every
        accepted packet and every pull of a live receiver is in the totals. */
    method Run(callbacks: seq<Callback>, grace: seq<Growth>)
      requires Valid() && creations == 0 && maxConcurrent == 0
      requires forall m: Metric ::
                 Ledger().Lifetimes(m) == 0 && WorkSum(callbacks, m) + AmountSum(grace, m) <= U64_MAX
      requires forall i :: 0 <= i < |callbacks| ==> callbacks[i].Fits(|receivers|)
      requires forall i :: 0 <= i < |grace| ==> grace[i].speaker < |receivers|
      modifies this
      ensures policy.Pool? ==> creations == maxConcurrent
      ensures Ledger().Tallied()
      ensures var p := Present(Presence(Holders(old(receivers)), old(interestActive), 0, 0), callbacks);
              var holders := p.holders + Speakers(grace);
              && Holders(receivers) == holders && maxConcurrent == Max(p.peak, |holders|)
              && creations + reuses == old(creations + reuses) + p.allocations + |holders - p.holders|
              && forall m: Metric :: !m.Failures? ==>
                   Total(totals, m)
                   == Counted(Presence(Holders(old(receivers)), old(interestActive), 0, 0), callbacks, m)
                      + AmountSum(grace, m)
    {
      RunOutcome(Life0(Ledger(), interestActive), callbacks, grace, policy);
      hide Books.Balanced, Books.Lifetimes, Books.Active, Served, Lived, Present, Counted, Holders, Speakers, Total, AmountSum;
      RunCallbacks(callbacks, grace);
    }
  }

  /** A listener between callbacks: its books, its interest and the most receivers it ever had active. */
  datatype Lifetime = Lifetime(books: Books, active: seq<bool>, peak: nat)

  function Life0(b: Books, active: seq<bool>): Lifetime { Lifetime(b, active, 0) }

  function Peaking(before: Lifetime, books: Books, active: seq<bool>): Lifetime {
    Lifetime(books, active, Max(before.peak, books.Active()))
  }

  /** Callback by callback: sync interest, accept packets, let the receivers work, note how many are active. */
  function Lived(start: Lifetime, callbacks: seq<Callback>, policy: Policy): (end: Lifetime)
    requires |start.active| == |start.books.receivers|
    requires forall i :: 0 <= i < |callbacks| ==> callbacks[i].Fits(|start.active|)
    ensures |end.active| == |end.books.receivers| == |start.active|
  {
    if callbacks == [] then start
    else
      var before, c := Lived(start, callbacks[..|callbacks| - 1], policy), callbacks[|callbacks| - 1];
      assert c.Fits(|start.active|);
      var kept := Unsubscribed(before.books, before.active, c.interested, policy, |c.interested|);
      Peaking(before, WorkedAll(Served(kept, c.accepted), c.work), c.interested)
  }

  /** Who has a receiver, without looking at receivers: how many were allocated so far and how many at most at once. */
  datatype Presence = Presence(holders: set<nat>, active: seq<bool>, allocations: nat, peak: nat)

  /** Losing interest takes a receiver away and an accepted packet gives one. */
  function Present(start: Presence, callbacks: seq<Callback>): (end: Presence)
    requires forall i :: 0 <= i < |callbacks| ==> callbacks[i].Fits(|start.active|)
    ensures |end.active| == |start.active|
  {
    if callbacks == [] then start
    else
      var before, c := Present(start, callbacks[..|callbacks| - 1]), callbacks[|callbacks| - 1];
      assert c.Fits(|start.active|);
      var kept := Keeping(before.holders, before.active, c.interested, |c.interested|);
      var now := kept + Speakers(c.accepted);
      Presence(now, c.interested, before.allocations + |now - kept|, Max(before.peak, |now|))
  }

  /** What receivers count: every accepted packet, and the pulls of those that have a receiver. */
  function Counted(start: Presence, callbacks: seq<Callback>, m: Metric): nat
    requires forall i :: 0 <= i < |callbacks| ==> callbacks[i].Fits(|start.active|)
  {
    if callbacks == [] then 0
    else
      var c := callbacks[|callbacks| - 1];
      Counted(start, callbacks[..|callbacks| - 1], m) + AmountSum(c.accepted, m)
      + LiveSum(c.work, Present(start, callbacks).holders, m)
  }

  lemma {:induction false} LivedPresent(start: Lifetime, callbacks: seq<Callback>, policy: Policy, m: Metric)
    requires |start.active| == |start.books.receivers| && !m.Failures?
    requires forall i :: 0 <= i < |callbacks| ==> callbacks[i].Fits(|start.active|)
    ensures var end := Lived(start, callbacks, policy);
            var before := Presence(Holders(start.books.receivers), start.active, 0, start.peak);
            var p := Present(before, callbacks);
            && Holders(end.books.receivers) == p.holders && end.active == p.active && end.peak == p.peak
            && end.books.creations + end.books.reuses == start.books.creations + start.books.reuses + p.allocations
            && end.books.Lifetimes(m) == start.books.Lifetimes(m) + Counted(before, callbacks, m)
  {
    if callbacks != [] {
      var front, c := callbacks[..|callbacks| - 1], callbacks[|callbacks| - 1];
      LivedPresent(start, front, policy, m);
      assert c.Fits(|start.active|);
      var before := Lived(start, front, policy);
      hide Holders, Speakers, Unsubscribed, Served, WorkedAll, Books.Lifetimes, AmountSum, LiveSum, Keeping;
      var kept := Unsubscribed(before.books, before.active, c.interested, policy, |c.interested|);
      UnsubscribedHolds(before.books, before.active, c.interested, policy, |c.interested|, m);
      ServedHolds(kept, c.accepted);
      ServedGains(kept, c.accepted, m);
      var served := Served(kept, c.accepted);
      WorkedAllGains(served, c.work, m);
      ActiveIsHolders(WorkedAll(served, c.work).receivers);
      assert Holders(served.receivers) - Holders(kept.receivers) == Speakers(c.accepted) - Holders(kept.receivers);
    }
  }

  lemma RunOutcome(start: Lifetime, callbacks: seq<Callback>, grace: seq<Growth>, policy: Policy)
    requires |start.active| == |start.books.receivers|
    requires forall i :: 0 <= i < |callbacks| ==> callbacks[i].Fits(|start.active|)
    requires forall i :: 0 <= i < |grace| ==> grace[i].speaker < |start.active|
    ensures var before := Lived(start, callbacks, policy);
            var end := Peaking(before, Served(before.books, grace), before.active);
            var presence := Presence(Holders(start.books.receivers), start.active, 0, start.peak);
            var p := Present(presence, callbacks);
            var holders := p.holders + Speakers(grace);
            && Holders(end.books.receivers) == holders && end.peak == Max(p.peak, |holders|)
            && end.books.creations + end.books.reuses
               == start.books.creations + start.books.reuses + p.allocations + |holders - p.holders|
            && forall m: Metric :: !m.Failures? ==>
                 end.books.Lifetimes(m)
                 == start.books.Lifetimes(m) + Counted(presence, callbacks, m) + AmountSum(grace, m)
  {
    var before := Lived(start, callbacks, policy);
    forall m: Metric | !m.Failures?
      ensures Served(before.books, grace).Lifetimes(m)
              == start.books.Lifetimes(m)
                 + Counted(Presence(Holders(start.books.receivers), start.active, 0, start.peak), callbacks, m)
                 + AmountSum(grace, m)
    {
      LivedPresent(start, callbacks, policy, m);
      ServedGains(before.books, grace, m);
    }
    LivedPresent(start, callbacks, policy, Concealed);
    ServedHolds(before.books, grace);
    ActiveIsHolders(Served(before.books, grace).receivers);
    hide Holders, Speakers, Lived, Present, Counted, Served, Books.Lifetimes;
    var held := Holders(before.books.receivers);
    assert held + Speakers(grace) - held == Speakers(grace) - held;
  }

  /** The interest, accepted packets and work of one playout callback. */
  datatype Callback = Callback(interested: seq<bool>, accepted: seq<Growth>, work: seq<Growth>)
  {
    predicate Fits(speakers: nat) {
      |interested| == speakers && forall i :: 0 <= i < |accepted| ==> accepted[i].speaker < speakers
    }
  }

  function AmountSum(work: seq<Growth>, m: Metric): nat {
    if work == [] then 0 else AmountSum(work[..|work| - 1], m) + Amount(work[|work| - 1], m)
  }

  function WorkSum(callbacks: seq<Callback>, m: Metric): nat {
    if callbacks == [] then 0
    else
      var last := callbacks[|callbacks| - 1];
      WorkSum(callbacks[..|callbacks| - 1], m) + AmountSum(last.accepted, m) + AmountSum(last.work, m)
  }

  lemma {:induction false} AmountPrefix(work: seq<Growth>, i: nat, m: Metric)
    requires i < |work|
    ensures AmountSum(work[..i + 1], m) == AmountSum(work[..i], m) + Amount(work[i], m) <= AmountSum(work, m)
  {
    hide Amount;
    assert work[..i + 1][..i] == work[..i];
    if i < |work| - 1 {
      AmountPrefix(work[..|work| - 1], i, m);
      assert work[..|work| - 1][..i + 1] == work[..i + 1] && work[..|work| - 1][..i] == work[..i];
    } else {
      assert work[..i + 1] == work;
    }
  }

  lemma {:induction false} WorkPrefix(callbacks: seq<Callback>, i: nat, m: Metric)
    requires i < |callbacks|
    ensures WorkSum(callbacks[..i + 1], m)
            == WorkSum(callbacks[..i], m) + AmountSum(callbacks[i].accepted, m) + AmountSum(callbacks[i].work, m)
            <= WorkSum(callbacks, m)
  {
    hide AmountSum;
    assert callbacks[..i + 1][..i] == callbacks[..i];
    if i < |callbacks| - 1 {
      var front := callbacks[..|callbacks| - 1];
      WorkPrefix(front, i, m);
      assert front[..i + 1] == callbacks[..i + 1] && front[..i] == callbacks[..i];
    } else {
      assert callbacks[..i + 1] == callbacks;
    }
  }

  lemma {:induction false} Prefix(slots: seq<Slot>, i: nat, f: Slot -> nat)
    requires i < |slots|
    ensures Sum(slots[..i + 1], f) == Sum(slots[..i], f) + f(slots[i]) <= Sum(slots, f)
  {
    assert slots[..i + 1][..i] == slots[..i];
    if i < |slots| - 1 {
      var front := slots[..|slots| - 1];
      Prefix(front, i, f);
      assert front[..i + 1] == slots[..i + 1] && front[..i] == slots[..i];
    } else {
      assert slots[..i + 1] == slots;
    }
  }

  lemma {:induction false} PrefixSome(slots: seq<Option<Slot>>, i: nat, f: Slot -> nat)
    requires i < |slots|
    ensures SumSome(slots[..i + 1], f) == SumSome(slots[..i], f) + Of(slots[i], f) <= SumSome(slots, f)
  {
    assert slots[..i + 1][..i] == slots[..i];
    if i < |slots| - 1 {
      var front := slots[..|slots| - 1];
      PrefixSome(front, i, f);
      assert front[..i + 1] == slots[..i + 1] && front[..i] == slots[..i];
    } else {
      assert slots[..i + 1] == slots;
    }
  }

  /** Nothing left to carry out of this receiver. */
  predicate Settled(s: Slot) { s.reported == s.lifetime && s.reportedFailure == s.failed }

  lemma CollectedActive(b: Books, i: nat)
    requires b.Balanced() && i < |b.receivers| && b.receivers[i].Some?
    ensures var (slot, totals) := Collect(b.receivers[i].value, b.totals);
            var next := b.(receivers := b.receivers[i := Some(slot)], totals := totals);
            && next.Balanced() && (b.Tallied() ==> next.Tallied()) && Settled(slot)
            && forall m: Metric :: next.Lifetimes(m) == b.Lifetimes(m)
  {
    var before := b.receivers[i].value;
    var (slot, totals) := Collect(before, b.totals);
    var next := b.(receivers := b.receivers[i := Some(slot)], totals := totals);
    assert Sound(slot) && Settled(slot);
    SumSomeUpdate(b.receivers, i, Some(slot), One());
    hide Sum, SumSome, Life, Reported, Unreported, Total, Collect, Sound;
    forall m: Metric ensures next.Carried(m) && next.Lifetimes(m) == b.Lifetimes(m) {
      assert b.Carried(m);
      UnreportedSumSome(b.receivers, m);
      UnreportedSum(b.pool, m);
      PartOfSum(b.receivers, i, Unreported(m));
      CollectMetric(before, b.totals, m);
      SumSomeUpdate(b.receivers, i, Some(slot), Life(m));
      SumSomeUpdate(b.receivers, i, Some(slot), Reported(m));
    }
  }

  lemma CollectedPooled(b: Books, i: nat)
    requires b.Balanced() && i < |b.pool|
    ensures var (slot, totals) := Collect(b.pool[i], b.totals);
            var next := b.(pool := b.pool[i := slot], totals := totals);
            && next.Balanced() && (b.Tallied() ==> next.Tallied()) && Settled(slot)
            && forall m: Metric :: next.Lifetimes(m) == b.Lifetimes(m)
  {
    var (slot, totals) := Collect(b.pool[i], b.totals);
    var next := b.(pool := b.pool[i := slot], totals := totals);
    assert Sound(slot) && Settled(slot);
    hide Sum, SumSome, Life, Reported, Unreported, Total, Collect, Sound;
    forall m: Metric ensures next.Carried(m) && next.Lifetimes(m) == b.Lifetimes(m) {
      assert b.Carried(m);
      UnreportedSumSome(b.receivers, m);
      UnreportedSum(b.pool, m);
      SumUpdate(b.pool, i, slot, Unreported(m));
      CollectMetric(b.pool[i], b.totals, m);
      SumUpdate(b.pool, i, slot, Life(m));
      SumUpdate(b.pool, i, slot, Reported(m));
    }
  }

  lemma {:induction false} SettledSum(slots: seq<Slot>, m: Metric)
    requires forall i :: 0 <= i < |slots| ==> Settled(slots[i])
    ensures Sum(slots, Reported(m)) == Sum(slots, Life(m))
  {
    if slots != [] {
      SettledSum(slots[..|slots| - 1], m);
    }
  }

  lemma {:induction false} SettledSumSome(slots: seq<Option<Slot>>, m: Metric)
    requires forall i :: 0 <= i < |slots| && slots[i].Some? ==> Settled(slots[i].value)
    ensures SumSome(slots, Reported(m)) == SumSome(slots, Life(m))
  {
    if slots != [] {
      SettledSumSome(slots[..|slots| - 1], m);
    }
  }

  lemma AllSettled(b: Books, m: Metric)
    requires b.Balanced()
    requires forall i :: 0 <= i < |b.pool| ==> Settled(b.pool[i])
    requires forall i :: 0 <= i < |b.receivers| && b.receivers[i].Some? ==> Settled(b.receivers[i].value)
    ensures Total(b.totals, m) == b.Lifetimes(m)
  {
    assert b.Carried(m);
    hide Sum, SumSome, Life, Reported, Total, Settled;
    SettledSum(b.pool, m);
    SettledSumSome(b.receivers, m);
  }

  lemma RetiredFrame(b: Books, speaker: nat, policy: Policy)
    requires speaker < |b.receivers| && b.receivers[speaker].Some?
    ensures Retired(b, speaker, policy).receivers == b.receivers[speaker := None]
    ensures Retired(b, speaker, policy).creations == b.creations && Retired(b, speaker, policy).reuses == b.reuses
  {
  }

  lemma {:induction false} NoneSum(slots: seq<Option<Slot>>, f: Slot -> nat)
    requires forall i :: 0 <= i < |slots| ==> slots[i].None?
    ensures SumSome(slots, f) == 0
  {
    if slots != [] {
      NoneSum(slots[..|slots| - 1], f);
    }
  }

  lemma EmptyLedger(speakers: nat, receivers: seq<Option<Slot>>)
    requires receivers == seq(speakers, i => None)
    ensures var b := Books(receivers, [], [], Totals(ZERO, 0), 0, 0, 0);
            b.Balanced() && b.Tallied() && b.Active() == 0 && forall m: Metric :: b.Lifetimes(m) == 0
  {
    var b := Books(receivers, [], [], Totals(ZERO, 0), 0, 0, 0);
    NoneSum(receivers, One());
    forall m: Metric ensures b.Carried(m) && b.Lifetimes(m) == 0 {
      NoneSum(receivers, Life(m));
      NoneSum(receivers, Reported(m));
    }
  }
}
