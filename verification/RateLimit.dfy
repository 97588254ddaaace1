/** The fixed-window rate limiter and its expiring counters. */
module RateLimit {

  datatype Call = Call(key: nat, time: nat)
  datatype Slot = Slot(key: nat, block: nat)
  datatype Counter = Counter(count: nat, expiresAt: nat)

  // ----- counting that never forgets -----

  function Block(time: nat, window: nat): nat
    requires window > 0
  {
    time / window
  }

  function CountIn(h: seq<Call>, key: nat, block: nat, window: nat): nat
    requires window > 0
  {
    if h == [] then 0
    else
      var c := h[|h| - 1];
      CountIn(h[..|h| - 1], key, block, window) + if c.key == key && Block(c.time, window) == block then 1 else 0
  }

  /** The last call of a history is admitted. */
  predicate AdmitsLast(h: seq<Call>, requests: nat, window: nat)
    requires window > 0 && h != []
  {
    var c := h[|h| - 1];
    CountIn(h, c.key, Block(c.time, window), window) <= requests
  }

  /** How many calls of a key with `lo <= time < hi` were admitted. */
  function Admitted(h: seq<Call>, key: nat, lo: nat, hi: nat, requests: nat, window: nat): nat
    requires window > 0
  {
    if h == [] then 0
    else
      var c := h[|h| - 1];
      Admitted(h[..|h| - 1], key, lo, hi, requests, window)
      + if c.key == key && lo <= c.time < hi && AdmitsLast(h, requests, window) then 1 else 0
  }

  // ----- multiples, kept out of the proofs about calls -----

  function Times(n: nat, size: nat): nat {
    n * size
  }

  lemma OneMore(n: nat, size: nat)
    ensures Times(0, size) == 0 && Times(n + 1, size) == Times(n, size) + size
  {
  }

  lemma Product(n: nat, size: nat)
    ensures Times(n, size) == n * size
  {
  }

  lemma Sum(a: nat, b: nat, size: nat)
    ensures Times(a + b, size) == Times(a, size) + Times(b, size)
  {
  }

  lemma Smaller(a: nat, b: nat, size: nat)
    requires a < b
    ensures Times(a, size) + size <= Times(b, size)
  {
    Sum(a + 1, b - a - 1, size);
    OneMore(a, size);
  }

  /** A block is the time from its multiple of the window to the next. */
  lemma InBlock(time: nat, block: nat, window: nat)
    requires window > 0
    ensures Block(time, window) == block <==> Times(block, window) <= time < Times(block + 1, window)
  {
    var own := Block(time, window);
    OwnBlock(time, window);
    OneMore(block, window);
    OneMore(own, window);
    hide Block, Times;
    if own < block {
      Smaller(own, block, window);
    } else if block < own {
      Smaller(block, own, window);
    }
  }

  lemma OwnBlock(time: nat, window: nat)
    requires window > 0
    ensures Times(Block(time, window), window) <= time < Times(Block(time, window), window) + window
  {
  }

  // ----- the limiter -----

  /** Counters there are count right and outlive their block; a counted slot is missing
      only when the clock has left its block behind. */
  ghost predicate CountersOk(counters: map<Slot, Counter>, h: seq<Call>, window: nat, clock: nat)
    requires window > 0
  {
    && (forall s | s in counters :: counters[s].count == CountIn(h, s.key, s.block, window))
    && (forall s | s in counters :: counters[s].expiresAt >= Times(s.block + 2, window))
    && (forall s: Slot | s !in counters && CountIn(h, s.key, s.block, window) > 0 :: clock >= Times(s.block + 2, window))
  }

  lemma ExpiryKeepsCountersOk(counters: map<Slot, Counter>, live: map<Slot, Counter>, h: seq<Call>, window: nat, clock: nat, now: nat)
    requires window > 0 && clock <= now && CountersOk(counters, h, window, clock)
    requires live == map s | s in counters && counters[s].expiresAt > now :: counters[s]
    ensures CountersOk(live, h, window, now)
  {
    hide CountIn, Times;
  }

  /** The slot of the moment is never one that has been forgotten. */
  lemma CountIsKnown(counters: map<Slot, Counter>, h: seq<Call>, window: nat, key: nat, now: nat)
    requires window > 0 && CountersOk(counters, h, window, now)
    ensures var slot := Slot(key, Block(now, window));
            CountIn(h, key, slot.block, window) == if slot in counters then counters[slot].count else 0
  {
    var slot := Slot(key, Block(now, window));
    hide CountIn, Block, Times;
    EndOfBlock(now, window);
    assert slot in counters || CountIn(h, slot.key, slot.block, window) == 0;
  }

  lemma EndOfBlock(now: nat, window: nat)
    requires window > 0
    ensures now < Times(Block(now, window) + 2, window) <= now + window * 2
  {
    hide Block, Times;
    var block := Block(now, window);
    InBlock(now, block, window);
    OneMore(block, window);
    OneMore(block + 1, window);
  }

  lemma CountInNext(h: seq<Call>, c: Call, key: nat, block: nat, window: nat)
    requires window > 0
    ensures CountIn(h + [c], key, block, window)
            == CountIn(h, key, block, window) + if c.key == key && Block(c.time, window) == block then 1 else 0
  {
    hide Block;
    assert (h + [c])[..|h + [c]| - 1] == h;
  }

  /** `h'` has one more call than `h`, in this slot. */
  ghost predicate OneMoreCall(h: seq<Call>, h': seq<Call>, slot: Slot, window: nat)
    requires window > 0
  {
    forall s: Slot :: CountIn(h', s.key, s.block, window) == CountIn(h, s.key, s.block, window) + if s == slot then 1 else 0
  }

  lemma CallIsOneMore(h: seq<Call>, key: nat, now: nat, window: nat)
    requires window > 0
    ensures OneMoreCall(h, h + [Call(key, now)], Slot(key, Block(now, window)), window)
  {
    hide CountIn, Block;
    forall s: Slot
      ensures CountIn(h + [Call(key, now)], s.key, s.block, window)
              == CountIn(h, s.key, s.block, window) + if s == Slot(key, Block(now, window)) then 1 else 0
    {
      CountInNext(h, Call(key, now), s.key, s.block, window);
    }
  }

  lemma CountingKeepsCountersOk(counters: map<Slot, Counter>, h: seq<Call>, h': seq<Call>, slot: Slot, counter: Counter,
                                window: nat, now: nat)
    requires window > 0 && CountersOk(counters, h, window, now) && OneMoreCall(h, h', slot, window)
    requires counter.count == CountIn(h, slot.key, slot.block, window) + 1
    requires counter.expiresAt >= Times(slot.block + 2, window)
    ensures CountersOk(counters[slot := counter], h', window, now)
  {
    hide CountIn, Times;
  }

  function ClockOf(h: seq<Call>): nat {
    if h == [] then 0 else h[|h| - 1].time
  }

  class RateLimiter {
    const requests: nat
    const window: nat
    var counters: map<Slot, Counter>
    ghost var history: seq<Call>

    ghost predicate Valid()
      reads this
    {
      window > 0 && CountersOk(counters, history, window, ClockOf(history))
    }

    constructor (requests: nat, window: nat)
      requires window > 0
      ensures Valid() && history == [] && this.requests == requests && this.window == window
    {
      this.requests, this.window := requests, window;
      counters, history := map[], [];
    }

    /** One atomic increment and re-expiry, after the store has dropped what is out of time.
        With a clock that does not go back the answer is that of a counter that never
        expires. */
    method Check(key: nat, now: nat) returns (allowed: bool)
      requires Valid() && ClockOf(history) <= now
      modifies this
      ensures Valid()
      ensures history == old(history) + [Call(key, now)]
      ensures allowed <==> AdmitsLast(history, requests, window)
    {
      var live := map s | s in counters && counters[s].expiresAt > now :: counters[s];
      hide Times, CountIn;
      ExpiryKeepsCountersOk(counters, live, history, window, ClockOf(history), now);
      var slot := Slot(key, Block(now, window));
      var count := (if slot in live then live[slot].count else 0) + 1;
      CountIsKnown(live, history, window, key, now);
      EndOfBlock(now, window);
      CallIsOneMore(history, key, now, window);
      hide Block;
      CountingKeepsCountersOk(live, history, history + [Call(key, now)], slot, Counter(count, now + window * 2), window, now);
      counters := live[slot := Counter(count, now + window * 2)];
      history := history + [Call(key, now)];
      if count > requests {
        return false;
      }
      return true;
    }
  }

  // ----- what the limiter gives over any interval -----

  /** Within one block exactly the first `requests` calls of a key are admitted. */
  lemma {:induction false} AdmittedInBlock(h: seq<Call>, key: nat, block: nat, requests: nat, window: nat)
    requires window > 0
    ensures Admitted(h, key, Times(block, window), Times(block + 1, window), requests, window)
            == var n := CountIn(h, key, block, window); if n <= requests then n else requests
  {
    hide Times, Block;
    if h != [] {
      AdmittedInBlock(h[..|h| - 1], key, block, requests, window);
      InBlock(h[|h| - 1].time, block, window);
    }
  }

  lemma {:induction false} AdmittedSplits(h: seq<Call>, key: nat, lo: nat, mid: nat, hi: nat, requests: nat, window: nat)
    requires window > 0 && lo <= mid <= hi
    ensures Admitted(h, key, lo, hi, requests, window)
            == Admitted(h, key, lo, mid, requests, window) + Admitted(h, key, mid, hi, requests, window)
  {
    hide AdmitsLast;
    if h != [] {
      AdmittedSplits(h[..|h| - 1], key, lo, mid, hi, requests, window);
    }
  }

  lemma {:induction false} AdmittedNowhere(h: seq<Call>, key: nat, lo: nat, requests: nat, window: nat)
    requires window > 0
    ensures Admitted(h, key, lo, lo, requests, window) == 0
  {
    hide AdmitsLast;
    if h != [] {
      AdmittedNowhere(h[..|h| - 1], key, lo, requests, window);
    }
  }

  lemma {:induction false} AdmittedOverBlocks(h: seq<Call>, key: nat, first: nat, n: nat, requests: nat, window: nat)
    requires window > 0
    ensures Times(first, window) <= Times(first + n, window)
    ensures Admitted(h, key, Times(first, window), Times(first + n, window), requests, window) <= Times(n, requests)
  {
    hide Times, Admitted, CountIn;
    OneMore(0, requests);
    if n == 0 {
      AdmittedNowhere(h, key, Times(first, window), requests, window);
    } else {
      var last := first + n - 1;
      assert first + (n - 1) == last && last + 1 == first + n;
      AdmittedOverBlocks(h, key, first, n - 1, requests, window);
      OneMore(last, window);
      OneMore(n - 1, requests);
      AdmittedSplits(h, key, Times(first, window), Times(last, window), Times(last + 1, window), requests, window);
      AdmittedInBlock(h, key, last, requests, window);
    }
  }

  lemma AdmittedOverWindows(h: seq<Call>, key: nat, start: nat, k: nat, requests: nat, window: nat)
    requires window > 0
    ensures Admitted(h, key, start, start + Times(k, window), requests, window) <= Times(k + 1, requests)
  {
    var q := Block(start, window);
    hide Times, Block, Admitted;
    InBlock(start, q, window);
    Sum(q + 1, k, window);
    var lo, mid, hi := Times(q, window), start + Times(k, window), Times(q + (k + 1), window);
    assert q + 1 + k == q + (k + 1);
    AdmittedSplits(h, key, lo, start, hi, requests, window);
    AdmittedSplits(h, key, start, mid, hi, requests, window);
    AdmittedOverBlocks(h, key, q, k + 1, requests, window);
  }

  /** Any interval of `k` windows, wherever it starts, admits at most `(k + 1) * requests`
      calls of a key. */
  lemma SlidingBound(h: seq<Call>, key: nat, start: nat, k: nat, requests: nat, window: nat)
    requires window > 0
    ensures Admitted(h, key, start, start + k * window, requests, window) <= (k + 1) * requests
  {
    hide Admitted, Times;
    AdmittedOverWindows(h, key, start, k, requests, window);
    Product(k, window);
    Product(k + 1, requests);
  }

  // ----- the bound is met -----

  function Burst(time: nat, n: nat): seq<Call> {
    seq(n, _ => Call(0, time))
  }

  /** A burst at `start` and one at the start of each of the next `k` blocks. */
  function Bursts(start: nat, k: nat, requests: nat, window: nat): seq<Call>
    requires window > 0
  {
    if k == 0 then Burst(start, requests)
    else Bursts(start, k - 1, requests, window) + Burst(Times(Block(start, window) + k, window), requests)
  }

  lemma BurstNext(h: seq<Call>, time: nat, n: nat)
    ensures h + Burst(time, 0) == h
    ensures n > 0 ==> h + Burst(time, n) == h + Burst(time, n - 1) + [Call(0, time)]
  {
  }

  lemma {:induction false} BurstCounts(h: seq<Call>, time: nat, n: nat, block: nat, window: nat)
    requires window > 0
    ensures CountIn(h + Burst(time, n), 0, block, window)
            == CountIn(h, 0, block, window) + if Block(time, window) == block then n else 0
  {
    hide Block, CountIn, Burst;
    BurstNext(h, time, n);
    if n > 0 {
      BurstCounts(h, time, n - 1, block, window);
      CountInNext(h + Burst(time, n - 1), Call(0, time), 0, block, window);
    }
  }

  lemma AdmittedNext(h: seq<Call>, c: Call, lo: nat, hi: nat, requests: nat, window: nat)
    requires window > 0 && lo <= c.time < hi && CountIn(h + [c], c.key, Block(c.time, window), window) <= requests
    ensures Admitted(h + [c], c.key, lo, hi, requests, window) == Admitted(h, c.key, lo, hi, requests, window) + 1
  {
    hide CountIn, Block;
    assert (h + [c])[..|h + [c]| - 1] == h;
  }

  lemma {:induction false} BurstAdds(h: seq<Call>, time: nat, n: nat, lo: nat, hi: nat, requests: nat, window: nat)
    requires window > 0 && n <= requests && lo <= time < hi
    requires CountIn(h, 0, Block(time, window), window) == 0
    ensures Admitted(h + Burst(time, n), 0, lo, hi, requests, window) == Admitted(h, 0, lo, hi, requests, window) + n
  {
    hide Block, CountIn, Burst, Admitted;
    BurstNext(h, time, n);
    if n > 0 {
      BurstAdds(h, time, n - 1, lo, hi, requests, window);
      BurstCounts(h, time, n, Block(time, window), window);
      AdmittedNext(h + Burst(time, n - 1), Call(0, time), lo, hi, requests, window);
    }
  }

  lemma OnlyBurst(time: nat, n: nat, lo: nat, hi: nat, block: nat, requests: nat, window: nat)
    requires window > 0 && n <= requests && lo <= time < hi
    ensures Admitted(Burst(time, n), 0, lo, hi, requests, window) == n
    ensures CountIn(Burst(time, n), 0, block, window) == if Block(time, window) == block then n else 0
  {
    hide Block;
    assert [] + Burst(time, n) == Burst(time, n);
    hide Burst;
    BurstAdds([], time, n, lo, hi, requests, window);
    BurstCounts([], time, n, block, window);
  }

  lemma BlockStarts(block: nat, window: nat)
    requires window > 0
    ensures Block(Times(block, window), window) == block
  {
    hide Block, Times;
    OneMore(block, window);
    InBlock(Times(block, window), block, window);
  }

  lemma {:induction false} BurstsStayBelow(start: nat, k: nat, block: nat, requests: nat, window: nat)
    requires window > 0 && block > Block(start, window) + k
    ensures CountIn(Bursts(start, k, requests, window), 0, block, window) == 0
  {
    hide Block, CountIn, Admitted, Burst, Times;
    if k == 0 {
      OnlyBurst(start, requests, 0, start + 1, block, requests, window);
    } else {
      var next := Block(start, window) + k;
      BlockStarts(next, window);
      BurstsStayBelow(start, k - 1, block, requests, window);
      BurstCounts(Bursts(start, k - 1, requests, window), Times(next, window), requests, block, window);
    }
  }

  /** Each of the `k` later blocks starts after `start` and not before the one ahead of it. */
  lemma NextBlockIsLater(start: nat, k: nat, window: nat)
    requires window > 0 && k >= 1
    ensures start < Times(Block(start, window) + k, window)
    ensures Times(Block(start, window) + (k - 1), window) < Times(Block(start, window) + k, window)
  {
    hide Block, Times;
    var block := Block(start, window);
    InBlock(start, block, window);
    Smaller(block + (k - 1), block + k, window);
    if k > 1 {
      Smaller(block + 1, block + k, window);
    }
  }

  lemma {:induction false} BurstsAreAdmitted(start: nat, k: nat, hi: nat, requests: nat, window: nat)
    requires window > 0 && start < hi && Times(Block(start, window) + k, window) < hi
    ensures Admitted(Bursts(start, k, requests, window), 0, start, hi, requests, window) == Times(k + 1, requests)
  {
    hide Block, CountIn, Admitted, Burst, Times;
    OneMore(k, requests);
    if k == 0 {
      OneMore(0, requests);
      OnlyBurst(start, requests, start, hi, 0, requests, window);
    } else {
      var next := Block(start, window) + k;
      BlockStarts(next, window);
      NextBlockIsLater(start, k, window);
      BurstsAreAdmitted(start, k - 1, hi, requests, window);
      BurstsStayBelow(start, k - 1, next, requests, window);
      BurstAdds(Bursts(start, k - 1, requests, window), Times(next, window), requests, start, hi, requests, window);
    }
  }

  ghost predicate InOrder(h: seq<Call>) {
    forall i, j | 0 <= i < j < |h| :: h[i].time <= h[j].time
  }

  lemma {:induction false} BurstsInOrder(start: nat, k: nat, requests: nat, window: nat)
    requires window > 0
    ensures InOrder(Bursts(start, k, requests, window))
    ensures forall i | 0 <= i < |Bursts(start, k, requests, window)| ::
              Bursts(start, k, requests, window)[i].time < Times(Block(start, window) + (k + 1), window)
  {
    hide Times, Block;
    NextBlockIsLater(start, k + 1, window);
    if k > 0 {
      BurstsInOrder(start, k - 1, requests, window);
      NextBlockIsLater(start, k, window);
    }
  }

  lemma AlignedIff(start: nat, window: nat)
    requires window > 0
    ensures Times(Block(start, window), window) <= start
    ensures start % window == 0 <==> start == Times(Block(start, window), window)
  {
    assert start == Times(start / window, window) + start % window;
  }

  lemma BurstsMeetBound(start: nat, k: nat, requests: nat, window: nat)
    requires window > 0 && start % window != 0
    ensures Admitted(Bursts(start, k, requests, window), 0, start, start + Times(k, window), requests, window)
            == if k == 0 then 0 else Times(k + 1, requests)
  {
    AlignedIff(start, window);
    hide Admitted, Bursts, Block, Times;
    if k == 0 {
      OneMore(0, window);
      AdmittedNowhere(Bursts(start, k, requests, window), 0, start, requests, window);
    } else {
      LastBurstFits(start, k, window);
      BurstsAreAdmitted(start, k, start + Times(k, window), requests, window);
    }
  }

  /** From a start inside a block, the sliding bound is reached, by calls in order. */
  lemma SlidingBoundIsMet(start: nat, k: nat, requests: nat, window: nat)
    requires window > 0 && start % window != 0
    ensures InOrder(Bursts(start, k, requests, window))
    ensures Admitted(Bursts(start, k, requests, window), 0, start, start + k * window, requests, window)
            == if k == 0 then 0 else (k + 1) * requests
  {
    hide Admitted, Bursts, InOrder, Block, Times;
    BurstsInOrder(start, k, requests, window);
    BurstsMeetBound(start, k, requests, window);
    Product(k, window);
    Product(k + 1, requests);
  }

  lemma LastBurstFits(start: nat, k: nat, window: nat)
    requires window > 0 && k >= 1 && Times(Block(start, window), window) < start
    ensures start < start + Times(k, window) && Times(Block(start, window) + k, window) < start + Times(k, window)
  {
    hide Times, Block;
    OneMore(0, window);
    Smaller(0, k, window);
    Sum(Block(start, window), k, window);
  }

  // ----- which intervals keep the plain limit -----

  /** How many calls of a key were admitted in the `k` windows from `start`. */
  function AdmittedFrom(h: seq<Call>, key: nat, start: nat, k: nat, requests: nat, window: nat): nat
    requires window > 0
  {
    Admitted(h, key, start, start + Times(k, window), requests, window)
  }

  /** Calls in order never get more than `k` times the limit admitted in the `k` windows
      from `start`. */
  ghost predicate KeepsLimit(start: nat, k: nat, requests: nat, window: nat)
    requires window > 0
  {
    forall h: seq<Call>, key: nat | InOrder(h) :: AdmittedFrom(h, key, start, k, requests, window) <= Times(k, requests)
  }

  lemma AlignedKeepsLimit(h: seq<Call>, key: nat, start: nat, k: nat, requests: nat, window: nat)
    requires window > 0 && start % window == 0
    ensures AdmittedFrom(h, key, start, k, requests, window) <= Times(k, requests)
  {
    AlignedIff(start, window);
    hide Admitted, Block, Times;
    AdmittedOverBlocks(h, key, Block(start, window), k, requests, window);
    Sum(Block(start, window), k, window);
  }

  lemma NoRequests(k: nat)
    ensures Times(k, 0) == 0 && Times(k + 1, 0) == 0
  {
  }

  lemma NothingAsked(h: seq<Call>, key: nat, start: nat, k: nat, requests: nat, window: nat)
    requires window > 0 && (k == 0 || requests == 0)
    ensures AdmittedFrom(h, key, start, k, requests, window) <= Times(k, requests)
  {
    hide Admitted, Times;
    OneMore(0, window);
    OneMore(0, requests);
    NoRequests(k);
    if k == 0 {
      AdmittedNowhere(h, key, start, requests, window);
    } else {
      AdmittedOverWindows(h, key, start, k, requests, window);
    }
  }

  lemma InsideExceedsLimit(start: nat, k: nat, requests: nat, window: nat)
    requires window > 0 && start % window != 0 && k > 0 && requests > 0
    ensures !KeepsLimit(start, k, requests, window)
  {
    hide Admitted, Bursts, InOrder, Times;
    var h := Bursts(start, k, requests, window);
    BurstsInOrder(start, k, requests, window);
    BurstsMeetBound(start, k, requests, window);
    OneMore(k, requests);
    assert AdmittedFrom(h, 0, start, k, requests, window) > Times(k, requests);
  }

  /** `k` windows keep `k` times the limit exactly when they start with a block, or nothing
      is asked of them. */
  lemma KeepsLimitIff(start: nat, k: nat, requests: nat, window: nat)
    requires window > 0
    ensures KeepsLimit(start, k, requests, window) <==> start % window == 0 || k == 0 || requests == 0
  {
    hide AdmittedFrom, InOrder, Times;
    if start % window != 0 && k > 0 && requests > 0 {
      InsideExceedsLimit(start, k, requests, window);
    } else {
      forall h: seq<Call>, key: nat | InOrder(h)
        ensures AdmittedFrom(h, key, start, k, requests, window) <= Times(k, requests)
      {
        if start % window == 0 {
          AlignedKeepsLimit(h, key, start, k, requests, window);
        } else {
          NothingAsked(h, key, start, k, requests, window);
        }
      }
    }
  }
}
