/**
 The token-bucket rate limiter of the model layer. The clock is injected: every call
 is given the reading it would have taken, and a history is the sequence of readings.

 The proofs run on gains, the number of tokens each call finds refilled, where all the
 arithmetic is linear; `GainsAddUp` turns a sum of gains back into elapsed time.
 */
module RateLimiting {

  datatype Bucket = Bucket(capacity: real, tokens: real, refillPerSec: real, last: real)

  function NewBucket(requestsPerMin: int, now: real): Bucket {
    Bucket(requestsPerMin as real, requestsPerMin as real, requestsPerMin as real / 60.0, now)
  }

  function Max(x: real, y: real): real { if x < y then y else x }

  function Min(x: real, y: real): real { if y < x then y else x }

  function Topped(capacity: real, tokens: real, elapsed: real, refillPerSec: real): real {
    Min(capacity, tokens + elapsed * refillPerSec)
  }

  /** One call: refill for the time that passed, then take a token if there is one. */
  function AllowAt(b: Bucket, now: real): (Bucket, bool) {
    var level := Topped(b.capacity, b.tokens, Max(0.0, now - b.last), b.refillPerSec);
    if level >= 1.0 then (b.(last := now, tokens := level - 1.0), true)
    else (b.(last := now, tokens := level), false)
  }

  // ------------------------------------------------------------- whole histories

  function AllButLast<T>(s: seq<T>): seq<T>
    requires s != []
  {
    s[..|s| - 1]
  }

  function Last<T>(s: seq<T>): T
    requires s != []
  {
    s[|s| - 1]
  }

  /** The bucket after a whole history of calls. */
  function After(rpm: int, start: real, clock: seq<real>): Bucket {
    if clock == [] then NewBucket(rpm, start)
    else AllowAt(After(rpm, start, AllButLast(clock)), Last(clock)).0
  }

  /** The answers a limiter gave over a history. */
  function Answers(rpm: int, start: real, clock: seq<real>): (a: seq<bool>)
    ensures |a| == |clock|
  {
    if clock == [] then []
    else Answers(rpm, start, AllButLast(clock))
         + [AllowAt(After(rpm, start, AllButLast(clock)), Last(clock)).1]
  }

  /** How many of the calls lo..hi-1 were admitted. */
  function Admitted(a: seq<bool>, lo: nat, hi: nat): nat
    requires lo <= hi <= |a|
  {
    if lo == hi then 0 else Admitted(a, lo, hi - 1) + if a[hi - 1] then 1 else 0
  }

  /** Time that passed from call lo to call hi; a clock that steps back adds nothing. */
  function Elapsed(clock: seq<real>, lo: nat, hi: nat): real
    requires lo <= hi < |clock|
  {
    if lo == hi then 0.0 else Elapsed(clock, lo, hi - 1) + Max(0.0, clock[hi] - clock[hi - 1])
  }

  function Refilled(rpm: int, elapsed: real): real {
    elapsed * (rpm as real / 60.0)
  }

  /** No window of calls that ends with call k holds more admissions than the capacity and
      the refill over that window allow. */
  ghost predicate FitsEveryWindow(rpm: int, clock: seq<real>, a: seq<bool>, k: nat)
    requires k < |clock| && |clock| == |a|
  {
    forall i: nat | i <= k ::
      Admitted(a, i, k) as real + 1.0 <= rpm as real + Refilled(rpm, Elapsed(clock, i, k))
  }

  // ---------------------------------------------------------- the same, on gains

  /** Tokens left after a sequence of refills, one call each. */
  function TokensAfter(cap: real, gains: seq<real>): real {
    if gains == [] then cap
    else
      var level := Min(cap, TokensAfter(cap, AllButLast(gains)) + Last(gains));
      if level >= 1.0 then level - 1.0 else level
  }

  /** What call k finds in the bucket. */
  function Level(cap: real, gains: seq<real>, k: nat): real
    requires k < |gains|
  {
    Min(cap, TokensAfter(cap, gains[..k]) + gains[k])
  }

  function Sum(gains: seq<real>, lo: nat, hi: nat): real
    requires lo <= hi < |gains|
  {
    if lo == hi then 0.0 else Sum(gains, lo, hi - 1) + gains[hi]
  }

  /** What a full bucket at call lo would have left at call hi. */
  function Budget(cap: real, gains: seq<real>, a: seq<bool>, lo: nat, hi: nat): real
    requires lo <= hi < |gains| && |gains| == |a|
  {
    cap + Sum(gains, lo, hi) - Admitted(a, lo, hi) as real
  }

  ghost predicate EveryBudgetLeavesOne(cap: real, gains: seq<real>, a: seq<bool>, k: nat)
    requires k < |gains| && |gains| == |a|
  {
    forall i: nat | i <= k :: Budget(cap, gains, a, i, k) >= 1.0
  }

  /** The answers a bucket gives are exactly "was the level at least one". */
  ghost predicate Greedy(cap: real, gains: seq<real>, a: seq<bool>) {
    && |a| == |gains|
    && forall k: nat | k < |gains| :: a[k] <==> Level(cap, gains, k) >= 1.0
  }

  ghost predicate NoLoss(gains: seq<real>) {
    forall k: nat | k < |gains| :: gains[k] >= 0.0
  }

  lemma LevelStep(cap: real, gains: seq<real>, k: nat)
    requires k + 1 < |gains|
    ensures var l := Level(cap, gains, k);
            Level(cap, gains, k + 1) == Min(cap, l - (if l >= 1.0 then 1.0 else 0.0) + gains[k + 1])
  {
    var upto := gains[..k + 1];
    assert AllButLast(upto) == gains[..k];
  }

  lemma FirstLevel(cap: real, gains: seq<real>)
    requires gains != [] && NoLoss(gains)
    ensures Level(cap, gains, 0) == cap
  {
    assert gains[..0] == [];
  }

  /** The level is exactly the least budget over all windows. */
  lemma {:induction false} LevelIsLeastBudget(cap: real, gains: seq<real>, a: seq<bool>, k: nat)
    returns (tight: nat)
    requires k < |gains| && NoLoss(gains) && Greedy(cap, gains, a)
    ensures forall i: nat | i <= k :: Level(cap, gains, k) <= Budget(cap, gains, a, i, k)
    ensures tight <= k && Level(cap, gains, k) == Budget(cap, gains, a, tight, k)
  {
    if k == 0 {
      FirstLevel(cap, gains);
      return 0;
    }
    tight := LevelIsLeastBudget(cap, gains, a, k - 1);
    LevelStep(cap, gains, k - 1);
    forall i: nat | i < k
      ensures Level(cap, gains, k) <= Budget(cap, gains, a, i, k)
    {
      assert Level(cap, gains, k - 1) <= Budget(cap, gains, a, i, k - 1);
    }
    if Level(cap, gains, k) == cap {
      tight := k;
    }
  }

  /** What any schedule would leave in the bucket, as a recurrence over calls. */
  function Room(cap: real, gains: seq<real>, b: seq<bool>, k: nat): real
    requires k < |gains| && |gains| == |b|
  {
    if k == 0 then cap
    else Min(cap, Room(cap, gains, b, k - 1) - (if b[k - 1] then 1.0 else 0.0) + gains[k])
  }

  lemma {:induction false} RoomIsABudget(cap: real, gains: seq<real>, b: seq<bool>, k: nat) returns (i: nat)
    requires k < |gains| && |gains| == |b|
    ensures i <= k && Room(cap, gains, b, k) == Budget(cap, gains, b, i, k)
  {
    if k == 0 { return 0; }
    i := RoomIsABudget(cap, gains, b, k - 1);
    if Room(cap, gains, b, k) == cap { i := k; }
  }

  /** A schedule that keeps every window bound never gets ahead of the bucket. */
  lemma {:induction false} Dominates(cap: real, gains: seq<real>, a: seq<bool>, b: seq<bool>, k: nat)
    requires k < |gains| && NoLoss(gains) && Greedy(cap, gains, a) && |b| == |gains|
    requires forall j: nat | j < |gains| && b[j] :: EveryBudgetLeavesOne(cap, gains, b, j)
    ensures Admitted(b, 0, k) <= Admitted(a, 0, k)
    ensures Room(cap, gains, b, k) + Admitted(b, 0, k) as real
            <= Level(cap, gains, k) + Admitted(a, 0, k) as real
    ensures Admitted(b, 0, k + 1) <= Admitted(a, 0, k + 1)
  {
    if k == 0 {
      FirstLevel(cap, gains);
    } else {
      Dominates(cap, gains, a, b, k - 1);
      LevelStep(cap, gains, k - 1);
    }
    if b[k] {
      var i := RoomIsABudget(cap, gains, b, k);
    }
  }

  // ---------------------------------------------------- from gains back to the clock

  /** The tokens each call of a history finds refilled. */
  function Gains(rpm: int, start: real, clock: seq<real>): (g: seq<real>)
    ensures |g| == |clock|
  {
    if clock == [] then []
    else
      var before := AllButLast(clock);
      Gains(rpm, start, before)
      + [Refilled(rpm, Max(0.0, Last(clock) - if before == [] then start else Last(before)))]
  }

  lemma {:induction false} GainsAt(rpm: int, start: real, clock: seq<real>, k: nat)
    requires k <= |clock|
    ensures Gains(rpm, start, clock)[..k] == Gains(rpm, start, clock[..k])
    ensures 0 < k < |clock| ==>
              Gains(rpm, start, clock)[k] == Refilled(rpm, Max(0.0, clock[k] - clock[k - 1]))
    decreases |clock|
  {
    if k < |clock| {
      var before := AllButLast(clock);
      GainsAt(rpm, start, before, k);
      assert before[..k] == clock[..k];
    } else {
      assert clock[..k] == clock;
    }
  }

  lemma RefillNeverTakes(rpm: nat, elapsed: real)
    requires elapsed >= 0.0
    ensures Refilled(rpm, elapsed) >= 0.0
  {
    assert rpm as real / 60.0 >= 0.0;
  }

  lemma {:induction false} GainsNeverTake(rpm: nat, start: real, clock: seq<real>)
    ensures NoLoss(Gains(rpm, start, clock))
  {
    if clock != [] {
      var before := AllButLast(clock);
      GainsNeverTake(rpm, start, before);
      RefillNeverTakes(rpm, Max(0.0, Last(clock) - if before == [] then start else Last(before)));
    }
  }

  lemma RefilledAdds(rpm: int, x: real, y: real)
    ensures Refilled(rpm, x + y) == Refilled(rpm, x) + Refilled(rpm, y)
  {
  }

  lemma {:induction false} GainsAddUp(rpm: int, start: real, clock: seq<real>, lo: nat, hi: nat)
    requires lo <= hi < |clock|
    ensures Sum(Gains(rpm, start, clock), lo, hi) == Refilled(rpm, Elapsed(clock, lo, hi))
  {
    if lo == hi {
    } else {
      GainsAddUp(rpm, start, clock, lo, hi - 1);
      GainsAt(rpm, start, clock, hi);
      RefilledAdds(rpm, Elapsed(clock, lo, hi - 1), Max(0.0, clock[hi] - clock[hi - 1]));
    }
  }

  /** One call, in terms of its gain. */
  lemma AllowByGain(b: Bucket, rpm: int, now: real)
    requires b.refillPerSec == rpm as real / 60.0
    ensures var level := Min(b.capacity, b.tokens + Refilled(rpm, Max(0.0, now - b.last)));
            && AllowAt(b, now).1 == (level >= 1.0)
            && AllowAt(b, now).0 == b.(last := now, tokens := if level >= 1.0 then level - 1.0 else level)
  {
  }

  lemma {:induction false} AfterByGains(rpm: int, start: real, clock: seq<real>)
    ensures var b := After(rpm, start, clock);
            && b.capacity == rpm as real
            && b.refillPerSec == rpm as real / 60.0
            && b.last == (if clock == [] then start else Last(clock))
            && b.tokens == TokensAfter(rpm as real, Gains(rpm, start, clock))
    ensures Greedy(rpm as real, Gains(rpm, start, clock), Answers(rpm, start, clock))
  {
    if clock != [] {
      var before := AllButLast(clock);
      AfterByGains(rpm, start, before);
      AllowByGain(After(rpm, start, before), rpm, Last(clock));
      var cap, g, g' := rpm as real, Gains(rpm, start, before), Gains(rpm, start, clock);
      assert AllButLast(g') == g == g'[..|clock| - 1];
      forall k: nat | k < |before| ensures Level(cap, g', k) == Level(cap, g, k) {
        assert g'[..k] == g[..k];
      }
    }
  }

  // ----------------------------------------------------------------- main results

  lemma WindowsAsBudgets(rpm: int, start: real, clock: seq<real>, a: seq<bool>, k: nat)
    requires k < |clock| && |a| == |clock|
    ensures FitsEveryWindow(rpm, clock, a, k) <==>
            EveryBudgetLeavesOne(rpm as real, Gains(rpm, start, clock), a, k)
  {
    var cap, g := rpm as real, Gains(rpm, start, clock);
    forall i: nat | i <= k
      ensures Budget(cap, g, a, i, k) == cap + Refilled(rpm, Elapsed(clock, i, k)) - Admitted(a, i, k) as real
    {
      GainsAddUp(rpm, start, clock, i, k);
    }
    if FitsEveryWindow(rpm, clock, a, k) {
      forall i: nat | i <= k ensures Budget(cap, g, a, i, k) >= 1.0 {
        assert Admitted(a, i, k) as real + 1.0 <= cap + Refilled(rpm, Elapsed(clock, i, k));
      }
    }
  }

  lemma {:induction false} TokensNeverAboveCapacity(cap: real, gains: seq<real>)
    ensures TokensAfter(cap, gains) <= cap
  {
    if gains != [] { TokensNeverAboveCapacity(cap, AllButLast(gains)); }
  }

  /** Over every history, call k is admitted exactly when no window ending at k would exceed
      capacity plus refill. Nothing else about the history matters. */
  lemma AdmissionCharacterised(rpm: int, start: real, clock: seq<real>, k: nat)
    requires k < |clock|
    ensures Answers(rpm, start, clock)[k] <==>
            FitsEveryWindow(rpm, clock, Answers(rpm, start, clock), k)
  {
    var a, g := Answers(rpm, start, clock), Gains(rpm, start, clock);
    AfterByGains(rpm, start, clock);
    WindowsAsBudgets(rpm, start, clock, a, k);
    if rpm >= 0 {
      GainsNeverTake(rpm, start, clock);
      var tight := LevelIsLeastBudget(rpm as real, g, a, k);
    } else {
      assert Budget(rpm as real, g, a, k, k) == rpm as real;
    }
  }

  /** Any window of calls admits at most the capacity plus what the elapsed time refills. */
  lemma {:induction false} WindowBound(rpm: nat, start: real, clock: seq<real>, lo: nat, hi: nat)
    requires lo <= hi < |clock|
    ensures Admitted(Answers(rpm, start, clock), lo, hi + 1) as real
            <= rpm as real + Refilled(rpm, Elapsed(clock, lo, hi))
    decreases hi
  {
    var a := Answers(rpm, start, clock);
    AdmissionCharacterised(rpm, start, clock, hi);
    if !a[hi] {
      if lo < hi {
        WindowBound(rpm, start, clock, lo, hi - 1);
        var step := Max(0.0, clock[hi] - clock[hi - 1]);
        RefilledAdds(rpm, Elapsed(clock, lo, hi - 1), step);
        RefillNeverTakes(rpm, step);
      } else {
      }
    }
  }

  lemma {:induction false} TokensNeverNegative(cap: real, gains: seq<real>)
    requires cap >= 0.0 && NoLoss(gains)
    ensures TokensAfter(cap, gains) >= 0.0
  {
    if gains != [] { TokensNeverNegative(cap, AllButLast(gains)); }
  }

  ghost predicate TokensInRange(rpm: int, start: real, clock: seq<real>) {
    0.0 <= After(rpm, start, clock).tokens <= After(rpm, start, clock).capacity
  }

  /** Tokens stay between zero and the capacity over every history exactly when the declared
      rate is not negative. */
  lemma TokensInRangeIff(rpm: int, start: real)
    ensures (forall clock: seq<real> :: TokensInRange(rpm, start, clock)) <==> rpm >= 0
  {
    if rpm >= 0 {
      forall clock: seq<real> ensures TokensInRange(rpm, start, clock) {
        AfterByGains(rpm, start, clock);
        GainsNeverTake(rpm, start, clock);
        TokensNeverAboveCapacity(rpm as real, Gains(rpm, start, clock));
        TokensNeverNegative(rpm as real, Gains(rpm, start, clock));
      }
    } else {
      assert !TokensInRange(rpm, start, []);
    }
  }

  lemma ProductAtLeastOne(rpm: nat, t: real)
    requires rpm >= 1 && t >= 60.0 / rpm as real
    ensures Refilled(rpm, t) >= 1.0
  {
    var r := rpm as real;
    var least := 60.0 / r;
    assert least * r == 60.0;
    assert least * (r / 60.0) == 1.0;
    RefillNeverTakes(rpm, t - least);
    RefilledAdds(rpm, least, t - least);
  }

  /** With a positive rate, a caller that waits 60/rpm seconds is admitted, whatever happened
      before. */
  lemma WaitingIsEnough(rpm: nat, start: real, clock: seq<real>, now: real)
    requires rpm >= 1
    requires now - (if clock == [] then start else Last(clock)) >= 60.0 / rpm as real
    ensures AllowAt(After(rpm, start, clock), now).1
  {
    AfterByGains(rpm, start, clock);
    GainsNeverTake(rpm, start, clock);
    TokensNeverNegative(rpm as real, Gains(rpm, start, clock));
    var waited := now - if clock == [] then start else Last(clock);
    ProductAtLeastOne(rpm, waited);
    AllowByGain(After(rpm, start, clock), rpm, now);
  }

  /** A schedule of admissions that breaks no window bound. */
  ghost predicate Lawful(rpm: int, clock: seq<real>, b: seq<bool>)
    requires |b| == |clock|
  {
    forall k: nat | k < |clock| && b[k] :: FitsEveryWindow(rpm, clock, b, k)
  }

  /** The limiter's own answers are lawful, and no lawful schedule has admitted more calls at
      any point of any history: the limiter is as permissive as its bound allows. */
  lemma MostPermissive(rpm: nat, start: real, clock: seq<real>, b: seq<bool>, n: nat)
    requires n <= |clock| && |b| == |clock| && Lawful(rpm, clock, b)
    ensures Lawful(rpm, clock, Answers(rpm, start, clock))
    ensures Admitted(b, 0, n) <= Admitted(Answers(rpm, start, clock), 0, n)
  {
    var a, g := Answers(rpm, start, clock), Gains(rpm, start, clock);
    forall k: nat | k < |clock| && a[k] ensures FitsEveryWindow(rpm, clock, a, k) {
      AdmissionCharacterised(rpm, start, clock, k);
    }
    if n > 0 {
      AfterByGains(rpm, start, clock);
      GainsNeverTake(rpm, start, clock);
      var cap := rpm as real;
      forall j: nat | j < |g| && b[j] ensures EveryBudgetLeavesOne(cap, g, b, j) {
        WindowsAsBudgets(rpm, start, clock, b, j);
      }
      Dominates(cap, g, a, b, n - 1);
    }
  }

  // ------------------------------------------------------------------- the object

  /** The limiter object. `start` and `history` record what its clock has read so far. */
  class RateLimiter {
    const requestsPerMin: int
    var capacity: real
    var tokens: real
    var refillPerSec: real
    var last: real
    ghost const start: real
    ghost var history: seq<real>

    ghost function View(): Bucket
      reads this
    {
      Bucket(capacity, tokens, refillPerSec, last)
    }

    ghost predicate Valid()
      reads this
    {
      View() == After(requestsPerMin, start, history)
    }

    constructor (requestsPerMin: int, now: real)
      ensures this.requestsPerMin == requestsPerMin && start == now && history == []
      ensures Valid()
    {
      this.requestsPerMin := requestsPerMin;
      capacity := requestsPerMin as real;
      tokens := requestsPerMin as real;
      refillPerSec := requestsPerMin as real / 60.0;
      last := now;
      start, history := now, [];
    }

    /** The update itself; `Allow` adds the bookkeeping of the history. */
    method Take(now: real) returns (ok: bool)
      modifies this
      ensures (View(), ok) == AllowAt(old(View()), now) && history == old(history)
    {
      var elapsed := Max(0.0, now - last);
      last := now;
      tokens := Topped(capacity, tokens, elapsed, refillPerSec);
      if tokens >= 1.0 {
        tokens := tokens - 1.0;
        ok := true;
      } else {
        ok := false;
      }
    }

    method Allow(now: real) returns (ok: bool)
      requires Valid()
      modifies this
      ensures Valid() && history == old(history) + [now]
      ensures (View(), ok) == AllowAt(old(View()), now)
      ensures Answers(requestsPerMin, start, history) == Answers(requestsPerMin, start, old(history)) + [ok]
    {
      HistoryGrows(requestsPerMin, start, history, now);
      ok := Take(now);
      history := history + [now];
    }
  }

  lemma HistoryGrows(rpm: int, start: real, clock: seq<real>, now: real)
    ensures After(rpm, start, clock + [now]) == AllowAt(After(rpm, start, clock), now).0
    ensures Answers(rpm, start, clock + [now])
            == Answers(rpm, start, clock) + [AllowAt(After(rpm, start, clock), now).1]
  {
    assert AllButLast(clock + [now]) == clock;
  }
}
