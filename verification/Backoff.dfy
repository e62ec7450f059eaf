/** The exponential polling of thpool_wait: the interval between two polls, over exact numbers. */
module Backoff {

  const MAX_NANOSEC: nat := 999_999_999
  const MAX_SECS: nat := 20

  datatype Interval = Interval(sec: nat, nsec: nat)

  /** CEIL(n * 1.01) */
  function Grown(n: nat): nat {
    (101 * n + 99) / 100
  }

  predicate Valid(i: Interval) {
    i.sec <= MAX_SECS && i.nsec < MAX_NANOSEC
  }

  /** The interval after the next poll; from `MAX_SECS` on the loop is left instead. */
  function NextInterval(i: Interval): Interval {
    if i.sec < MAX_SECS then
      var newNano := Grown(i.nsec);
      Interval(if newNano > MAX_NANOSEC then i.sec + 1 else i.sec, newNano % MAX_NANOSEC)
    else i
  }

  function After(i: Interval, k: nat): Interval {
    if k == 0 then i else NextInterval(After(i, k - 1))
  }

  lemma AfterNone(i: Interval)
    ensures After(i, 0) == i
  {
  }

  lemma AfterNext(i: Interval, k: nat)
    ensures After(i, k + 1) == NextInterval(After(i, k))
  {
  }

  predicate Shorter(i: Interval, j: Interval) {
    i.sec < j.sec || (i.sec == j.sec && i.nsec < j.nsec)
  }

  /** The interval stays in range. */
  lemma {:induction false} StaysValid(i: Interval, k: nat)
    requires Valid(i)
    ensures Valid(After(i, k))
  {
    if k > 0 {
      StaysValid(i, k - 1);
    }
  }

  /** A positive interval below the maximum grows, unless its nanoseconds are the one value that grows
      to exactly MAX_NANOSEC. */
  lemma GrowsIffNotLanding(i: Interval)
    requires Valid(i) && i.sec < MAX_SECS && i.nsec > 0
    ensures Shorter(i, NextInterval(i)) <==> i.nsec != 990_099_008
    ensures Grown(i.nsec) == MAX_NANOSEC <==> i.nsec == 990_099_008
  {
  }

  /** The length of an interval, in the unit of `nsec`; a turn carries MAX_NANOSEC of them into a second. */
  function Length(i: Interval): nat {
    999_999_999 * i.sec + i.nsec
  }

  /** Apart from that value an interval grows by a hundredth of its nanoseconds, rounded up, also when it
      turns; from 20 seconds on it stays as it is. */
  lemma GrowsByAHundredth(i: Interval)
    requires Valid(i)
    ensures i.sec < 20 && i.nsec != 990_099_008 ==> Length(NextInterval(i)) == Length(i) + (i.nsec + 99) / 100
    ensures i.sec == 20 ==> NextInterval(i) == i
    ensures i.sec <= 20 && i.nsec < 999_999_999
    ensures Valid(NextInterval(i))
  {
  }

  /** From that value on the loop polls without a pause, for ever. */
  lemma {:induction false} LandingNeverRecovers(sec: nat, k: nat)
    requires sec < MAX_SECS && k > 0
    ensures After(Interval(sec, 990_099_008), k) == Interval(sec, 0)
  {
    if k > 1 {
      LandingNeverRecovers(sec, k - 1);
    }
  }

  /** Within `k` polls the seconds have increased or the nanoseconds have landed on zero. */
  ghost predicate Turns(i: Interval, k: nat) {
    exists m: nat :: m <= k && (After(i, m).sec > i.sec || After(i, m).nsec == 0)
  }

  lemma HundredthAdds(a: nat, k: nat, n: nat)
    requires 100 * n >= (100 + k) * a
    ensures 100 * Grown(n) >= (100 + (k + 1)) * a
  {
    assert (100 + k) * a == 100 * a + k * a && (100 + (k + 1)) * a == (100 + k) * a + a;
    assert k * a >= 0;
    assert n >= a;
  }

  /** Before that, each poll adds at least a hundredth of the start. */
  lemma {:induction false} GrowsByHundredths(i: Interval, k: nat)
    requires Valid(i) && i.sec < MAX_SECS && i.nsec > 0
    ensures Turns(i, k) || (After(i, k).sec == i.sec && 100 * After(i, k).nsec >= (100 + k) * i.nsec)
  {
    if k > 0 && !Turns(i, k) {
      NotTurning(i, k);
      GrowsByHundredths(i, k - 1);
      StaysValid(i, k - 1);
      HundredthAdds(i.nsec, k - 1, After(i, k - 1).nsec);
      NoWrap(After(i, k - 1));
    }
  }

  /** A poll that neither adds a second nor lands on zero just grows the nanoseconds. */
  lemma NoWrap(i: Interval)
    requires Valid(i) && i.sec < MAX_SECS && NextInterval(i).sec <= i.sec && NextInterval(i).nsec > 0
    ensures NextInterval(i) == Interval(i.sec, Grown(i.nsec))
  {
  }

  /** What it means not to have turned after `k` polls. */
  lemma NotTurning(i: Interval, k: nat)
    requires k > 0 && Valid(i) && !Turns(i, k)
    ensures !Turns(i, k - 1)
    ensures After(i, k).sec <= i.sec && After(i, k).nsec > 0
  {
  }

  /** The nanoseconds double, or the interval turns, within a hundred polls. */
  lemma DoublesOrTurns(i: Interval)
    requires Valid(i) && i.sec < MAX_SECS && i.nsec > 0
    ensures Turns(i, 100) || (After(i, 100).sec == i.sec && After(i, 100).nsec >= 2 * i.nsec)
  {
    GrowsByHundredths(i, 100);
  }

  ghost function Pow2(k: nat): nat {
    if k == 0 then 1 else 2 * Pow2(k - 1)
  }

  lemma Pow2Ten(k: nat)
    ensures Pow2(k + 10) == 1024 * Pow2(k)
  {
    assert Pow2(k + 4) == 2 * Pow2(k + 3) == 4 * Pow2(k + 2) == 8 * Pow2(k + 1) == 16 * Pow2(k);
    assert Pow2(k + 8) == 2 * Pow2(k + 7) == 4 * Pow2(k + 6) == 8 * Pow2(k + 5) == 16 * Pow2(k + 4);
    assert Pow2(k + 10) == 2 * Pow2(k + 9) == 4 * Pow2(k + 8);
  }

  lemma {:induction false} AfterAfter(i: Interval, j: nat, k: nat)
    ensures After(After(i, j), k) == After(i, j + k)
    decreases k
  {
    if k > 0 {
      AfterAfter(i, j, k - 1);
    }
  }

  lemma {:induction false} GrowsByPowers(i: Interval, j: nat)
    requires Valid(i) && i.sec < MAX_SECS && i.nsec > 0
    ensures Turns(i, 100 * j) || (After(i, 100 * j).sec == i.sec && After(i, 100 * j).nsec >= Pow2(j))
  {
    if j > 0 {
      GrowsByPowers(i, j - 1);
      var mid := After(i, 100 * (j - 1));
      StaysValid(i, 100 * (j - 1));
      if Turns(i, 100 * (j - 1)) {
        var m: nat :| m <= 100 * (j - 1) && (After(i, m).sec > i.sec || After(i, m).nsec == 0);
        assert m <= 100 * j;
      } else {
        assert 100 * (j - 1) <= 100 * (j - 1);
        DoublesOrTurns(mid);
        AfterAfter(i, 100 * (j - 1), 100);
        if Turns(mid, 100) {
          var m: nat :| m <= 100 && (After(mid, m).sec > mid.sec || After(mid, m).nsec == 0);
          AfterAfter(i, 100 * (j - 1), m);
          assert 100 * (j - 1) + m <= 100 * j;
        }
      }
    }
  }

  /** At most 3000 polls lie between two increments of the seconds, unless the nanoseconds land on zero. */
  lemma SecondsAdvance(i: Interval)
    requires Valid(i) && i.sec < MAX_SECS && i.nsec > 0
    ensures Turns(i, 3000)
  {
    GrowsByPowers(i, 30);
    StaysValid(i, 3000);
    Pow2Ten(20);
    Pow2Ten(10);
    Pow2Ten(0);
    assert Pow2(30) == 1_073_741_824;
  }

  /** The longest interval is reached within 3000 polls for each second left, unless it lands on zero. */
  lemma {:induction false} ReachesMaximum(i: Interval) returns (k: nat)
    requires Valid(i) && i.nsec > 0
    ensures k <= 3000 * (MAX_SECS - i.sec)
    ensures After(i, k).sec == MAX_SECS || After(i, k).nsec == 0
    decreases MAX_SECS - i.sec
  {
    k := 0;
    if i.sec < MAX_SECS {
      SecondsAdvance(i);
      var m: nat :| m <= 3000 && (After(i, m).sec > i.sec || After(i, m).nsec == 0);
      StaysValid(i, m);
      k := m;
      if After(i, m).nsec != 0 {
        var rest := ReachesMaximum(After(i, m));
        AfterAfter(i, m, rest);
        k := m + rest;
      }
    }
  }

  // ----- Which intervals land on zero

  function Grows(n: nat, j: nat): nat {
    if j == 0 then n else Grown(Grows(n, j - 1))
  }

  const FIRST_DOOMED: nat := 658_418_900

  /** Nanoseconds that grow to the landing value: the 42 from `FIRST_DOOMED` on. */
  ghost predicate Doomed(n: nat) {
    exists j: nat :: j <= 41 && n == Grows(FIRST_DOOMED, j)
  }

  lemma {:induction false} GrowsTogether(n: nat, j: nat, k: nat)
    ensures Grows(n, j + k) == Grows(Grows(n, j), k)
  {
    if k > 0 {
      GrowsTogether(n, j, k - 1);
    }
  }

  /** `m` is `n` grown, without a division. */
  predicate GrowsTo(n: nat, m: nat) {
    100 * m <= 101 * n + 99 < 100 * m + 100
  }

  lemma FourMore(j: nat, n: nat, a: nat, b: nat, c: nat, m: nat)
    requires Grows(FIRST_DOOMED, j) == n && GrowsTo(n, a) && GrowsTo(a, b) && GrowsTo(b, c) && GrowsTo(c, m)
    ensures Grows(FIRST_DOOMED, j + 4) == m
  {
    assert Grows(FIRST_DOOMED, j + 1) == a;
    assert Grows(FIRST_DOOMED, j + 2) == b;
    assert Grows(FIRST_DOOMED, j + 3) == c;
  }

  lemma GrowsNone(n: nat)
    ensures Grows(n, 0) == n
  {
  }

  lemma GrowsNext(n: nat, j: nat)
    ensures Grows(n, j + 1) == Grown(Grows(n, j))
  {
  }

  /** The doomed values end with the landing value. */
  lemma DoomedGrowsToLanding()
    ensures Grows(FIRST_DOOMED, 41) == 990_099_008
  {
    hide Grows, Grown;
    GrowsNone(FIRST_DOOMED);
    FourMore(0, 658_418_900, 665_003_089, 671_653_120, 678_369_652, 685_153_349);
    FourMore(4, 685_153_349, 692_004_883, 698_924_932, 705_914_182, 712_973_324);
    FourMore(8, 712_973_324, 720_103_058, 727_304_089, 734_577_130, 741_922_902);
    FourMore(12, 741_922_902, 749_342_132, 756_835_554, 764_403_910, 772_047_950);
    FourMore(16, 772_047_950, 779_768_430, 787_566_115, 795_441_777, 803_396_195);
    FourMore(20, 803_396_195, 811_430_157, 819_544_459, 827_739_904, 836_017_304);
    FourMore(24, 836_017_304, 844_377_478, 852_821_253, 861_349_466, 869_962_961);
    FourMore(28, 869_962_961, 878_662_591, 887_449_217, 896_323_710, 905_286_948);
    FourMore(32, 905_286_948, 914_339_818, 923_483_217, 932_718_050, 942_045_231);
    FourMore(36, 942_045_231, 951_465_684, 960_980_341, 970_590_145, 980_296_047);
    GrowsNext(FIRST_DOOMED, 40);
    assert Grown(980_296_047) == 990_099_008 by { LastGrowth(); }
  }

  lemma LastGrowth()
    ensures Grown(980_296_047) == 990_099_008
  {
  }

  /** Nothing grows to the first doomed value, and no two values grow to the same. */
  lemma GrownIsInjective(m: nat, n: nat)
    ensures Grown(n) != FIRST_DOOMED
    ensures Grown(m) == Grown(n) ==> m == n
  {
  }

  lemma {:induction false} DoomedAreLarge(j: nat)
    ensures FIRST_DOOMED <= Grows(FIRST_DOOMED, j) <= Grows(FIRST_DOOMED, j + 1)
  {
    if j > 0 {
      DoomedAreLarge(j - 1);
    }
  }

  /** An interval that is not doomed is followed by one that is neither doomed nor zero. */
  lemma StaysUndoomed(i: Interval)
    requires Valid(i) && i.sec < MAX_SECS && i.nsec > 0 && !Doomed(i.nsec)
    ensures NextInterval(i).nsec > 0 && !Doomed(NextInterval(i).nsec)
  {
    hide Grows;
    var next := NextInterval(i).nsec;
    DoomedGrowsToLanding();
    assert i.nsec != 990_099_008;
    forall j: nat | j <= 41 ensures next != Grows(FIRST_DOOMED, j) {
      DoomedAreLarge(j);
      GrowsNone(FIRST_DOOMED);
      if j > 0 && next == Grown(i.nsec) {
        GrowsNext(FIRST_DOOMED, j - 1);
        GrownIsInjective(i.nsec, Grows(FIRST_DOOMED, j - 1));
        assert i.nsec != Grows(FIRST_DOOMED, j - 1);
      }
      GrownIsInjective(0, i.nsec);
    }
  }

  lemma {:induction false} UndoomedNeverLands(i: Interval, k: nat)
    requires Valid(i) && i.nsec > 0 && !Doomed(i.nsec)
    ensures After(i, k).nsec > 0 && !Doomed(After(i, k).nsec)
  {
    if k > 0 {
      UndoomedNeverLands(i, k - 1);
      StaysValid(i, k - 1);
      if After(i, k - 1).sec < MAX_SECS { StaysUndoomed(After(i, k - 1)); }
    }
  }

  /** From a doomed value the landing follows within 42 polls. */
  lemma {:induction false} DoomedLands(sec: nat, j: nat)
    requires sec < MAX_SECS && j <= 41
    ensures After(Interval(sec, Grows(FIRST_DOOMED, j)), 42 - j) == Interval(sec, 0)
    decreases 41 - j
  {
    hide Grows, After;
    DoomedGrowsToLanding();
    if j == 41 {
      LandingNeverRecovers(sec, 1);
    } else {
      DoomedStayBelow(j + 1);
      GrowsNext(FIRST_DOOMED, j);
      AfterNone(Interval(sec, Grows(FIRST_DOOMED, j)));
      DoomedLands(sec, j + 1);
      AfterAfter(Interval(sec, Grows(FIRST_DOOMED, j)), 1, 41 - j);
      AfterNext(Interval(sec, Grows(FIRST_DOOMED, j)), 0);
    }
  }

  lemma {:induction false} DoomedStayBelow(j: nat)
    requires j <= 41
    ensures Grows(FIRST_DOOMED, j) <= 990_099_008
    decreases 41 - j
  {
    hide Grows;
    DoomedGrowsToLanding();
    if j < 41 {
      DoomedStayBelow(j + 1);
      DoomedAreLarge(j);
    }
  }

  /** A positive interval below the maximum lands on zero nanoseconds if and only if it starts at one of
      the 42 doomed values. */
  lemma LandsIffDoomed(i: Interval)
    requires Valid(i) && i.sec < MAX_SECS && i.nsec > 0
    ensures (exists k: nat :: After(i, k).nsec == 0) <==> Doomed(i.nsec)
  {
    if Doomed(i.nsec) {
      var j: nat :| j <= 41 && i.nsec == Grows(FIRST_DOOMED, j);
      DoomedLands(i.sec, j);
      assert After(i, 42 - j).nsec == 0;
    } else {
      forall k: nat ensures After(i, k).nsec != 0 {
        UndoomedNeverLands(i, k);
      }
    }
  }

  /** What thpool_wait sleeps first */
  const FIRST_INTERVAL := Interval(0, 1)

  lemma FirstNeverLands(k: nat)
    ensures Valid(After(FIRST_INTERVAL, k)) && After(FIRST_INTERVAL, k).nsec > 0
    ensures !Doomed(After(FIRST_INTERVAL, k).nsec)
  {
    forall j: nat ensures 1 != Grows(FIRST_DOOMED, j) {
      DoomedAreLarge(j);
    }
    UndoomedNeverLands(FIRST_INTERVAL, k);
    StaysValid(FIRST_INTERVAL, k);
  }

  /** The first interval is not doomed: each poll is followed by a longer one until the maximum is reached. */
  lemma PollingSlowsDown(k: nat)
    ensures After(FIRST_INTERVAL, k).sec < MAX_SECS ==>
              Shorter(After(FIRST_INTERVAL, k), After(FIRST_INTERVAL, k + 1))
  {
    FirstNeverLands(k);
    DoomedGrowsToLanding();
    if After(FIRST_INTERVAL, k).sec < MAX_SECS {
      GrowsIffNotLanding(After(FIRST_INTERVAL, k));
      AfterNext(FIRST_INTERVAL, k);
    }
  }

  /** That takes at most 60000 polls. */
  lemma PollingReachesMaximum() returns (last: nat)
    ensures last <= 60000 && After(FIRST_INTERVAL, last).sec == 20
  {
    last := ReachesMaximum(FIRST_INTERVAL);
    FirstNeverLands(last);
  }

  lemma SleepsAreBounded(slept: seq<Interval>)
    requires forall k :: 0 <= k < |slept| ==> slept[k] == After(FIRST_INTERVAL, k)
    requires forall k :: 0 <= k < |slept| - 1 ==> slept[k].sec < MAX_SECS
    ensures |slept| <= 60001
    ensures forall k :: 0 <= k < |slept| - 1 ==> Shorter(slept[k], slept[k + 1])
  {
    hide After;
    var last := PollingReachesMaximum();
    forall k | 0 <= k < |slept| - 1 ensures Shorter(slept[k], slept[k + 1]) {
      PollingSlowsDown(k);
    }
  }

  /** The polling loop, where `busy[k]` is what the k-th test of the loop condition finds; `slept` are
      the intervals slept. It stops when the pool is idle or the interval has reached the maximum; until
      then every interval is longer than the one before. */
  method PollExponentially(busy: seq<bool>) returns (slept: seq<Interval>)
    ensures |slept| <= |busy|
    ensures slept != [] ==> slept[0] == Interval(0, 1)
    ensures forall k :: 0 <= k < |slept| ==> busy[k] && Valid(slept[k]) && slept[k] == After(FIRST_INTERVAL, k)
    ensures forall k :: 0 <= k < |slept| - 1 ==> slept[k].sec < 20 && Shorter(slept[k], slept[k + 1])
    ensures |slept| <= 60001
    ensures |slept| == |busy| || !busy[|slept|] || (slept != [] && slept[|slept| - 1].sec == 20)
  {
    hide After, Grown;
    slept := [];
    AfterNone(FIRST_INTERVAL);
    var sec: nat, nsec: nat := 0, 1;
    var k := 0;
    while k < |busy| && busy[k]
      invariant k == |slept| <= |busy|
      invariant Interval(sec, nsec) == After(FIRST_INTERVAL, k) && Valid(Interval(sec, nsec))
      invariant forall j :: 0 <= j < k ==> busy[j] && Valid(slept[j]) && slept[j] == After(FIRST_INTERVAL, j)
      invariant forall j :: 0 <= j < k ==> slept[j].sec < MAX_SECS
    {
      slept := slept + [Interval(sec, nsec)];
      AfterNext(FIRST_INTERVAL, k);
      if sec < MAX_SECS {
        var newNano := Grown(nsec);
        nsec := newNano % MAX_NANOSEC;
        if newNano > MAX_NANOSEC {
          sec := sec + 1;
        }
      } else {
        break;
      }
      k := k + 1;
    }
    SleepsAreBounded(slept);
  }
}
