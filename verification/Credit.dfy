/**
  The fractional allowance of live-context calls: a bucket that gains `rate`
  calls a tick, hands out whole calls and takes unused ones back.
 */
module Credit {
  import opened Prelude

  const CREDIT_TICKS := 3.0

  function Drawn(balance: real, rate: real): (r: (int, real)) {
    if rate <= 0.0 then (0, balance)
    else
      var full := MinReal(rate * CREDIT_TICKS, balance + rate);
      (full.Floor, full - full.Floor as real)
  }

  function Refunded(balance: real, unused: int, rate: real): real {
    if unused <= 0 || rate <= 0.0 then balance
    else MinReal(rate * CREDIT_TICKS, balance + unused as real)
  }

  /** A draw that cannot spend past `room` calls. */
  function Allowed(balance: real, rate: real, room: int): (int, real) {
    var (drawn, kept) := Drawn(balance, rate);
    var allowed := if room >= drawn then drawn else Max(0, room);
    (allowed, Refunded(kept, drawn - allowed, rate))
  }

  /**
    A draw grants the most whole calls that both the filled bucket and the room
    allow, and leaves the rest of the filled bucket in it. A rate of zero or
    less grants nothing and leaves the bucket alone.
   */
  lemma GrantIsTheMostItCanBe(balance: real, rate: real, room: int)
    requires balance >= 0.0
    ensures rate <= 0.0 ==> Allowed(balance, rate, room) == (0, balance)
    ensures rate > 0.0 ==>
      var (allowed, left) := Allowed(balance, rate, room);
      var filled := MinReal(3.0 * rate, balance + rate);
      && allowed as real + left == filled
      && 0 <= allowed <= Max(0, room) && allowed as real <= filled
      && (allowed == Max(0, room) || filled < (allowed + 1) as real)
  {
  }

  class ContextCredit {
    var balance: real

    constructor ()
      ensures balance == 0.0
    {
      balance := 0.0;
    }

    method Draw(rate: real) returns (allowed: int)
      modifies this
      ensures (allowed, balance) == Drawn(old(balance), rate)
    {
      if rate <= 0.0 { return 0; }
      var cap := rate * CREDIT_TICKS;
      balance := MinReal(cap, balance + rate);
      allowed := balance.Floor;
      balance := balance - allowed as real;
    }

    method Refund(unused: int, rate: real)
      modifies this
      ensures balance == Refunded(old(balance), unused, rate)
    {
      if unused <= 0 || rate <= 0.0 { return; }
      var cap := rate * CREDIT_TICKS;
      balance := MinReal(cap, balance + unused as real);
    }

    method Allowance(rate: real, room: int) returns (allowed: int)
      modifies this
      ensures (allowed, balance) == Allowed(old(balance), rate, room)
    {
      var drawn := Draw(rate);
      allowed := if room >= drawn then drawn else Max(0, room);
      Refund(drawn - allowed, rate);
    }
  }

  // ------------------------------------------------------------- whole runs

  /** One scheduler tick: the rate of its plan, the room above the buffer, the calls really made. */
  datatype Tick = Tick(rate: real, room: int, spent: int)

  /** What one tick grants, and the balance after its unused calls came back. */
  function TickOf(balance: real, t: Tick): (int, real) {
    var (allowed, kept) := Allowed(balance, t.rate, t.room);
    (allowed, Refunded(kept, allowed - Max(0, t.spent), t.rate))
  }

  function BalanceAfter(start: real, ticks: seq<Tick>): real {
    if ticks == [] then start
    else TickOf(BalanceAfter(start, ticks[..|ticks| - 1]), ticks[|ticks| - 1]).1
  }

  function GrantOf(start: real, ticks: seq<Tick>): int
    requires ticks != []
  {
    TickOf(BalanceAfter(start, ticks[..|ticks| - 1]), ticks[|ticks| - 1]).0
  }

  /** Every tick spends at most what it was granted. */
  predicate WithinGrants(start: real, ticks: seq<Tick>) {
    ticks == [] || (WithinGrants(start, ticks[..|ticks| - 1]) && ticks[|ticks| - 1].spent <= GrantOf(start, ticks))
  }

  function Spent(ticks: seq<Tick>): int {
    if ticks == [] then 0 else Spent(ticks[..|ticks| - 1]) + Max(0, ticks[|ticks| - 1].spent)
  }

  function Rates(ticks: seq<Tick>): real {
    if ticks == [] then 0.0 else Rates(ticks[..|ticks| - 1]) + MaxReal(0.0, ticks[|ticks| - 1].rate)
  }

  /** A tick never grants past its room, never goes below zero, and never creates credit. */
  lemma TickIsSound(balance: real, t: Tick)
    requires balance >= 0.0
    ensures var (allowed, after) := TickOf(balance, t);
      && 0 <= allowed <= Max(0, t.room)
      && 0.0 <= after
      && (t.rate > 0.0 ==> after <= CREDIT_TICKS * t.rate)
      && (t.spent <= allowed ==> after + Max(0, t.spent) as real <= balance + MaxReal(0.0, t.rate))
  {
    var (drawn, kept) := Drawn(balance, t.rate);
    var (allowed, back) := Allowed(balance, t.rate, t.room);
    assert 0 <= drawn && 0.0 <= kept;
    assert drawn as real + kept <= balance + MaxReal(0.0, t.rate);
    assert back <= kept + (drawn - allowed) as real;
  }

  /**
    Sound token bucket: whatever the rates, rooms and spends, the balance stays
    non-negative and the calls made never exceed the first balance plus all rates.
   */
  lemma {:induction false} BucketIsSound(start: real, ticks: seq<Tick>)
    requires start >= 0.0 && WithinGrants(start, ticks)
    ensures BalanceAfter(start, ticks) >= 0.0
    ensures Spent(ticks) as real + BalanceAfter(start, ticks) <= start + Rates(ticks)
  {
    if ticks != [] {
      var front := ticks[..|ticks| - 1];
      BucketIsSound(start, front);
      TickIsSound(BalanceAfter(start, front), ticks[|ticks| - 1]);
    }
  }

  // ------------------------------------------------- fixed rate, all spent

  /** Balance after `n` ticks at one rate when every grant is spent. */
  function SteadyBalance(start: real, rate: real, n: nat): real {
    if n == 0 then start else Drawn(SteadyBalance(start, rate, n - 1), rate).1
  }

  function SteadyGrant(start: real, rate: real, n: nat): int {
    if n == 0 then 0
    else SteadyGrant(start, rate, n - 1) + Drawn(SteadyBalance(start, rate, n - 1), rate).0
  }

  /** `start` plus n rates, added one at a time. */
  function Accrued(start: real, rate: real, n: nat): real {
    if n == 0 then start else Accrued(start, rate, n - 1) + rate
  }

  lemma {:induction false} AccruedIsLinear(start: real, rate: real, n: nat)
    ensures Accrued(start, rate, n) == start + n as real * rate
  {
    if n > 0 {
      AccruedIsLinear(start, rate, n - 1);
      assert n as real == (n - 1) as real + 1.0;
    }
  }

  lemma DrawConserves(balance: real, rate: real)
    requires 0.0 <= balance < 1.0 && rate >= 0.5
    ensures var (drawn, kept) := Drawn(balance, rate);
      drawn as real + kept == balance + rate && 0.0 <= kept < 1.0
  {
  }

  lemma {:induction false} SteadyConserves(start: real, rate: real, n: nat)
    requires 0.0 <= start < 1.0 && rate >= 0.5
    ensures 0.0 <= SteadyBalance(start, rate, n) < 1.0
    ensures SteadyGrant(start, rate, n) as real + SteadyBalance(start, rate, n) == Accrued(start, rate, n)
  {
    if n > 0 {
      SteadyConserves(start, rate, n - 1);
      DrawConserves(SteadyBalance(start, rate, n - 1), rate);
    }
  }

  /** From one half up the cap never bites: after n ticks exactly floor(start + n*rate) calls were granted. */
  lemma SteadyGrantIsExact(start: real, rate: real, n: nat)
    requires 0.0 <= start < 1.0 && rate >= 0.5
    ensures 0.0 <= SteadyBalance(start, rate, n) < 1.0
    ensures SteadyGrant(start, rate, n) == (start + n as real * rate).Floor
  {
    SteadyConserves(start, rate, n);
    AccruedIsLinear(start, rate, n);
  }

  /** Below one third the cap stays under a whole call, so nothing is ever granted. */
  lemma {:induction false} SlowRateGrantsNothing(start: real, rate: real, n: nat)
    requires start >= 0.0 && 0.0 < rate && rate * CREDIT_TICKS < 1.0
    ensures SteadyGrant(start, rate, n) == 0 && SteadyBalance(start, rate, n) >= 0.0
  {
    if n > 0 { SlowRateGrantsNothing(start, rate, n - 1); }
  }

  /** The exact condition for live context to run at all: some call is granted within three ticks iff rate >= 1/3. */
  lemma GrantsIffThirdOfACall(start: real, rate: real)
    requires start >= 0.0 && rate > 0.0
    ensures (exists n: nat :: SteadyGrant(start, rate, n) > 0) <==> rate * CREDIT_TICKS >= 1.0
    ensures rate * CREDIT_TICKS >= 1.0 ==> SteadyGrant(start, rate, 3) > 0
  {
    if rate * CREDIT_TICKS >= 1.0 {
      ThreeTicks(start, rate);
    } else {
      forall n: nat ensures SteadyGrant(start, rate, n) == 0 {
        SlowRateGrantsNothing(start, rate, n);
      }
    }
  }

  lemma ThreeTicks(start: real, rate: real)
    requires start >= 0.0 && rate * CREDIT_TICKS >= 1.0
    ensures SteadyGrant(start, rate, 3) > 0
  {
    var one, two := Drawn(start, rate), Drawn(Drawn(start, rate).1, rate);
    var three := Drawn(two.1, rate);
    assert SteadyBalance(start, rate, 1) == one.1;
    assert SteadyBalance(start, rate, 2) == two.1;
    assert SteadyGrant(start, rate, 1) == one.0;
    assert SteadyGrant(start, rate, 2) == one.0 + two.0;
    assert SteadyGrant(start, rate, 3) == one.0 + two.0 + three.0;
  }
}
