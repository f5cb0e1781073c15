/** A local socket's state as the kernel reports it. Events come in any order; of the
    counters the highest report is kept, and of the metrics the latest sample. */
module KernelState {

  const WORD64 := 0x1_0000_0000_0000_0000
  const MAX_HZ := 10_000

  /** `sampled` is zero for an event that carries no sample. */
  datatype Metrics = Metrics(sampled: nat, jiffies: nat, hz: nat, rest: nat)

  datatype Info = Info(metrics: Metrics, retransmits: nat, segsOut: nat, rest: nat)

  const UNKNOWN := Info(Metrics(0, 0, 0, 0), 0, 0, 0)

  function Max(a: nat, b: nat): nat { if a < b then b else a }

  /** The tick rate two samples imply, if it is believable. */
  function Rate(previous: Metrics, m: Metrics): Metrics
    requires m.sampled >= previous.sampled
  {
    var elapsed := m.sampled - previous.sampled;
    if elapsed == 0 then m
    else
      var hz := (m.jiffies - previous.jiffies) * 1_000_000_000 % WORD64 / elapsed;
      m.(hz := if hz <= MAX_HZ then hz else previous.hz)
  }

  function Merge(k: Metrics, m: Metrics): Metrics {
    if m.sampled == 0 || m.sampled < k.sampled then k
    else if k.sampled > 0 && m.jiffies > k.jiffies then Rate(k, m)
    else m.(hz := k.hz)
  }

  /** A sample carries no counters of its own; any other event carries no metrics. */
  function Observed(k: Info, info: Info): Info {
    var base := if info.metrics.sampled != 0 then k else info;
    Info(Merge(k.metrics, info.metrics), Max(k.retransmits, base.retransmits), Max(k.segsOut, base.segsOut), base.rest)
  }

  function Run(events: seq<Info>): Info
    decreases |events|
  {
    if events == [] then UNKNOWN else Observed(Run(events[..|events| - 1]), events[|events| - 1])
  }

  /** What an event says of the counters, and of the sample time. */
  function Counters(e: Info): (nat, nat) { if e.metrics.sampled != 0 then (0, 0) else (e.retransmits, e.segsOut) }

  ghost predicate Highest(n: nat, events: seq<Info>, of: Info -> nat) {
    (forall e :: e in events ==> of(e) <= n) && (n == 0 || exists e :: e in events && of(e) == n)
  }

  function Retransmits(e: Info): nat { Counters(e).0 }

  function SegsOut(e: Info): nat { Counters(e).1 }

  function Sampled(e: Info): nat { e.metrics.sampled }

  lemma HighestMore(n: nat, events: seq<Info>, e: Info, of: Info -> nat)
    requires Highest(n, events, of)
    ensures Highest(Max(n, of(e)), events + [e], of)
  {
    if n < of(e) {
      assert (events + [e])[|events|] == e;
    } else if n != 0 {
      var d :| d in events && of(d) == n;
      assert d in events + [e];
    }
  }

  /** After any events, in any order, each counter is the highest any of them reported,
      and the metrics are as late as the latest sample. */
  lemma {:induction false} CountersAreHighest(events: seq<Info>)
    ensures Highest(Run(events).retransmits, events, Retransmits)
    ensures Highest(Run(events).segsOut, events, SegsOut)
    ensures Highest(Run(events).metrics.sampled, events, Sampled)
    decreases |events|
  {
    if events != [] {
      var init, last := events[..|events| - 1], events[|events| - 1];
      CountersAreHighest(init);
      HighestMore(Run(init).retransmits, init, last, Retransmits);
      HighestMore(Run(init).segsOut, init, last, SegsOut);
      HighestMore(Run(init).metrics.sampled, init, last, Sampled);
      assert events == init + [last];
    }
  }

  /** The metrics, but for the tick rate that is worked out from two samples, are those of
      the latest sample, and of the last to arrive among several of that time. */
  lemma {:induction false} MetricsAreLatest(events: seq<Info>) returns (i: nat)
    requires exists e :: e in events && e.metrics.sampled != 0
    ensures i < |events| && Run(events).metrics == events[i].metrics.(hz := Run(events).metrics.hz)
    ensures forall e :: e in events ==> e.metrics.sampled <= events[i].metrics.sampled
    ensures forall j :: i < j < |events| ==> events[j].metrics.sampled < events[i].metrics.sampled
    decreases |events|
  {
    CountersAreHighest(events);
    var init, last := events[..|events| - 1], events[|events| - 1];
    CountersAreHighest(init);
    assert events == init + [last];
    if last.metrics.sampled != 0 && last.metrics.sampled >= Run(init).metrics.sampled {
      i := |init|;
    } else {
      var e :| e in events && e.metrics.sampled != 0;
      assert e in init || Run(init).metrics.sampled > 0;
      i := MetricsAreLatest(init);
      assert events[i] == init[i];
    }
  }

  lemma MergeMeans(k: Metrics, m: Metrics)
    ensures m.sampled == 0 || m.sampled < k.sampled ==> Merge(k, m) == k
    ensures m.sampled >= k.sampled && m.sampled > 0 && (k.sampled == 0 || m.jiffies <= k.jiffies) ==>
              Merge(k, m).hz == k.hz
  {
  }

  lemma RateIsChecked(k: Metrics, m: Metrics)
    requires m.sampled > k.sampled > 0 && m.jiffies > k.jiffies && (m.jiffies - k.jiffies) * 1_000_000_000 < WORD64
    ensures var hz := (m.jiffies - k.jiffies) * 1_000_000_000 / (m.sampled - k.sampled);
            Merge(k, m).hz == if hz <= 10_000 then hz else k.hz
  {
  }

  /** The tick rate follows from a sample that is later and has more ticks, unless it would
      be more than ten thousand a second; any other keeps it. */
  lemma RateMeans(events: seq<Info>, e: Info)
    ensures var k, m, after := Run(events).metrics, e.metrics, Run(events + [e]).metrics;
            && (m.sampled == 0 || m.sampled < k.sampled ==> after == k)
            && (m.sampled >= k.sampled && m.sampled > 0 && (k.sampled == 0 || m.jiffies <= k.jiffies) ==>
                  after.hz == k.hz)
            && (m.sampled > k.sampled > 0 && m.jiffies > k.jiffies
                && (m.jiffies - k.jiffies) * 1_000_000_000 < WORD64 ==>
                  var hz := (m.jiffies - k.jiffies) * 1_000_000_000 / (m.sampled - k.sampled);
                  after.hz == if hz <= 10_000 then hz else k.hz)
  {
    var k, m := Run(events).metrics, e.metrics;
    assert (events + [e])[..|events|] == events;
    MergeMeans(k, m);
    if m.sampled > k.sampled > 0 && m.jiffies > k.jiffies && (m.jiffies - k.jiffies) * 1_000_000_000 < WORD64 {
      RateIsChecked(k, m);
    }
  }

  lemma NoFraction(k: int, d: nat, r: nat)
    requires k * d == r < d
    ensures k == 0
  {
    assert k >= 1 ==> k * d >= d;
    assert k <= -1 ==> k * d + d <= 0;
  }

  lemma Quotient(h: nat, d: nat)
    requires d > 0
    ensures h * d / d == h
  {
    var q, r := h * d / d, h * d % d;
    assert h * d == d * q + r;
    assert (h - q) * d == r;
    NoFraction(h - q, d, r);
  }

  lemma SteadyRate(seconds: nat, h: nat)
    requires seconds > 0
    ensures seconds * h * 1_000_000_000 / (seconds * 1_000_000_000) == h
  {
    Quotient(h, seconds * 1_000_000_000);
    assert seconds * h * 1_000_000_000 == h * (seconds * 1_000_000_000);
  }

  /** Samples of a clock that ticks `h` times a second, whole seconds apart, give its rate. */
  lemma RateIsRecovered(events: seq<Info>, e: Info, seconds: nat, h: nat, ticks: nat)
    requires Run(events).metrics.sampled > 0 && seconds > 0 && h <= 10_000
    requires ticks == seconds * h && 0 < ticks && ticks * 1_000_000_000 < WORD64
    requires e.metrics.sampled == Run(events).metrics.sampled + seconds * 1_000_000_000
    requires e.metrics.jiffies == Run(events).metrics.jiffies + ticks
    ensures Run(events + [e]).metrics.hz == h
  {
    SteadyRate(seconds, h);
    RateMeans(events, e);
  }

  /** Hence the order in which events arrive does not matter to counters and sample time. */
  lemma OrderIrrelevant(a: seq<Info>, b: seq<Info>)
    requires multiset(a) == multiset(b)
    ensures Run(a).retransmits == Run(b).retransmits && Run(a).segsOut == Run(b).segsOut
    ensures Run(a).metrics.sampled == Run(b).metrics.sampled
  {
    CountersAreHighest(a);
    CountersAreHighest(b);
    forall e ensures e in a <==> e in b {
      assert e in multiset(a) <==> e in multiset(b);
    }
  }

  class Side {
    var info: Info
    ghost var events: seq<Info>

    ghost predicate Valid()
      reads this
    {
      info == Run(events)
    }

    constructor ()
      ensures Valid() && events == []
    {
      info, events := UNKNOWN, [];
    }

    method ObserveKernel(reported: Info)
      requires Valid()
      modifies this
      ensures Valid() && events == old(events) + [reported]
    {
      var k, next := info, reported;
      if next.metrics.sampled != 0 {
        next := k.(metrics := next.metrics);
      }
      if next.metrics.sampled == 0 {
        next := next.(metrics := k.metrics);
      } else if next.metrics.sampled < k.metrics.sampled {
        next := next.(metrics := k.metrics);
      } else if k.metrics.sampled > 0 && next.metrics.jiffies > k.metrics.jiffies {
        var elapsed := next.metrics.sampled - k.metrics.sampled;
        if elapsed > 0 {
          var hz := (next.metrics.jiffies - k.metrics.jiffies) * 1_000_000_000 % WORD64 / elapsed;
          next := next.(metrics := next.metrics.(hz := if hz <= MAX_HZ then hz else k.metrics.hz));
        }
      } else {
        next := next.(metrics := next.metrics.(hz := k.metrics.hz));
      }
      info := next.(retransmits := Max(k.retransmits, next.retransmits), segsOut := Max(k.segsOut, next.segsOut));
      events := events + [reported];
      assert events[..|events| - 1] == old(events);
    }
  }
}
