/** The output stage's own run inside a run of system cycles: its ticks, one after another. */
module TickRun {
  import opened Spwm
  import opened Waveform
  import opened Pacing

  /** Ticks in the first n cycles. */
  function Count(cards: seq<Card>, n: nat): nat
    requires n <= |cards|
  {
    if n == 0 then 0 else Count(cards, n - 1) + (if Ticks(cards[n - 1]) then 1 else 0)
  }

  /** The stage at the ticks of the first n cycles, and after the last of them. */
  function States(cards: seq<Card>, n: nat): seq<Regs>
    requires n < |cards|
  {
    if n == 0 then [cards[0].stage]
    else States(cards, n - 1) + (if Ticks(cards[n - 1]) then [cards[n].stage] else [])
  }

  function Waves(cards: seq<Card>, n: nat): seq<Wave>
    requires n < |cards|
  {
    if n == 0 then [cards[0].wave]
    else Waves(cards, n - 1) + (if Ticks(cards[n - 1]) then [cards[n].wave] else [])
  }

  function TickIns(cards: seq<Card>, pins: seq<In>, n: nat): seq<In>
    requires n <= |pins| && n <= |cards|
  {
    if n == 0 then [] else TickIns(cards, pins, n - 1) + (if Ticks(cards[n - 1]) then [pins[n - 1]] else [])
  }

  lemma {:induction false} Lengths(c: Cfg, d: int, cards: seq<Card>, pins: seq<In>, n: nat)
    requires IsCardRun(c, d, cards, pins) && n <= |pins|
    ensures |States(cards, n)| == |Waves(cards, n)| == Count(cards, n) + 1 && |TickIns(cards, pins, n)| == Count(cards, n)
    ensures States(cards, n)[Count(cards, n)] == cards[n].stage && Waves(cards, n)[Count(cards, n)] == cards[n].wave
  {
    if n > 0 {
      Lengths(c, d, cards, pins, n - 1);
      assert CardAt(c, d, cards, pins, n - 1);
    }
  }

  /** THE TICKS ARE A RUN of the stage: between them nothing changes. */
  lemma {:induction false} TicksAreARun(c: Cfg, d: int, cards: seq<Card>, pins: seq<In>, n: nat)
    requires IsCardRun(c, d, cards, pins) && n <= |pins|
    ensures IsRun(c, States(cards, n), Waves(cards, n), TickIns(cards, pins, n))
  {
    Lengths(c, d, cards, pins, n);
    if n > 0 {
      TicksAreARun(c, d, cards, pins, n - 1);
      Lengths(c, d, cards, pins, n - 1);
      assert CardAt(c, d, cards, pins, n - 1);
      var run, waves, ins := States(cards, n), Waves(cards, n), TickIns(cards, pins, n);
      forall t | 0 <= t < |ins|
        ensures TickAt(c, run, waves, ins, t)
      {
        if t < Count(cards, n - 1) {
          assert TickAt(c, States(cards, n - 1), Waves(cards, n - 1), TickIns(cards, pins, n - 1), t);
        }
      }
    }
  }

  lemma {:induction false} CountGrows(cards: seq<Card>, t: nat, n: nat)
    requires t <= n <= |cards|
    ensures Count(cards, t) <= Count(cards, n)
  {
    if t < n { CountGrows(cards, t, n - 1); }
  }

  /** Cycle t is at tick Count(t) of the run. */
  lemma {:induction false} StateAt(c: Cfg, d: int, cards: seq<Card>, pins: seq<In>, t: nat, n: nat)
    requires IsCardRun(c, d, cards, pins) && t <= n <= |pins|
    ensures Count(cards, t) < |States(cards, n)| && States(cards, n)[Count(cards, t)] == cards[t].stage
  {
    Lengths(c, d, cards, pins, n);
    CountGrows(cards, t, n);
    if t < n {
      StateAt(c, d, cards, pins, t, n - 1);
      Lengths(c, d, cards, pins, n - 1);
    }
  }

  /** Every tick of the run is a cycle in which the divider ticks. */
  lemma {:induction false} CycleOfTick(c: Cfg, d: int, cards: seq<Card>, pins: seq<In>, n: nat, j: nat) returns (t: nat)
    requires IsCardRun(c, d, cards, pins) && n <= |pins| && j < Count(cards, n)
    ensures t < n && Ticks(cards[t]) && Count(cards, t) == j
    ensures |TickIns(cards, pins, n)| == Count(cards, n) == |States(cards, n)| - 1
    ensures TickIns(cards, pins, n)[j] == pins[t] && States(cards, n)[j] == cards[t].stage
  {
    Lengths(c, d, cards, pins, n);
    Lengths(c, d, cards, pins, n - 1);
    if j < Count(cards, n - 1) {
      t := CycleOfTick(c, d, cards, pins, n - 1, j);
    } else {
      t := n - 1;
    }
  }
}
