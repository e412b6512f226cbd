/** The split-transaction arbiter: N sources share one in-order memory port, and a ring of tags
    remembers whose read each returning word answers. */
module Arbiter {

  /** Build parameters: sources, reads one source may have in flight, ring depth, run keeping. */
  datatype Cfg = Cfg(n: int, per: int, depth: int, sticky: bool)

  predicate ValidCfg(c: Cfg) { 1 <= c.n && 1 <= c.per && 2 <= c.depth }

  function Max(a: int, b: int): int { if a < b then b else a }

  /** The depth the builder picks when none is given. */
  function DefaultCfg(n: int, per: int, sticky: bool): Cfg { Cfg(n, per, Max(2, n * per), sticky) }

  datatype Regs = Regs(outst: seq<int>, tags: seq<int>, wptr: int, rptr: int, count: int,
                       grant: int, pick: int, armed: bool, bubble: bool)

  /** One cycle's inputs: each source's request, address and end-of-run mark, and the port. */
  datatype In = In(req: seq<bool>, adr: seq<int>, last: seq<bool>, cmdReady: bool, datValid: bool)

  predicate Shaped(c: Cfg, s: Regs, i: In) {
    && ValidCfg(c)
    && |s.outst| == |i.req| == |i.adr| == |i.last| == c.n && |s.tags| == c.depth
    && 0 <= s.pick < c.n && 0 <= s.grant < c.n
    && 0 <= s.wptr < c.depth && 0 <= s.rptr < c.depth
  }

  function Reset(c: Cfg): Regs
    requires ValidCfg(c)
  {
    Regs(seq(c.n, k => 0), seq(c.depth, k => 0), 0, 0, 0, 0, 0, false, false)
  }

  predicate Eligible(c: Cfg, s: Regs, i: In, k: int)
    requires Shaped(c, s, i) && 0 <= k < c.n
  {
    i.req[k] && s.outst[k] != c.per
  }

  function Wrap(a: int, n: int): int { if a >= n then a - n else a }

  /** The rotated priority chain: the first eligible source from `grant` on, else the last one. */
  function Choose(c: Cfg, s: Regs, i: In, k: int): (r: int)
    requires Shaped(c, s, i) && 0 <= k < c.n
    ensures 0 <= r < c.n
    decreases c.n - k
  {
    var cand := Wrap(s.grant + k, c.n);
    if k == c.n - 1 || Eligible(c, s, i, cand) then cand else Choose(c, s, i, k + 1)
  }

  predicate CmdValid(c: Cfg, s: Regs, i: In)
    requires Shaped(c, s, i)
  {
    s.armed && Eligible(c, s, i, s.pick) && s.count < c.depth && !s.bubble
  }

  predicate Issues(c: Cfg, s: Regs, i: In)
    requires Shaped(c, s, i)
  {
    CmdValid(c, s, i) && i.cmdReady
  }

  function CmdAdr(c: Cfg, s: Regs, i: In): int
    requires Shaped(c, s, i)
  {
    i.adr[s.pick]
  }

  predicate CmdAck(c: Cfg, s: Regs, i: In, k: int)
    requires Shaped(c, s, i)
  {
    Issues(c, s, i) && s.pick == k
  }

  predicate Ack(c: Cfg, s: Regs, i: In, k: int)
    requires Shaped(c, s, i)
  {
    i.datValid && s.tags[s.rptr] == k
  }

  function CmdAcks(c: Cfg, s: Regs, i: In): seq<bool>
    requires Shaped(c, s, i)
  {
    seq(c.n, k => CmdAck(c, s, i, k))
  }

  function Acks(c: Cfg, s: Regs, i: In): seq<bool>
    requires Shaped(c, s, i)
  {
    seq(c.n, k => Ack(c, s, i, k))
  }

  function Bump(p: int, depth: int): int { if p == depth - 1 then 0 else p + 1 }

  function B(b: bool): int { if b then 1 else 0 }

  function GrantNext(c: Cfg, s: Regs, i: In): int
    requires Shaped(c, s, i)
  {
    if !Issues(c, s, i) then s.grant
    else if !c.sticky then Bump(s.grant, c.n)
    else if !i.last[s.pick] then s.pick
    else Bump(s.pick, c.n)
  }

  /** An issue and a return for the same source can land in the same cycle. */
  function OutstNext(c: Cfg, s: Regs, i: In): seq<int>
    requires Shaped(c, s, i)
  {
    seq(c.n, k requires 0 <= k < c.n => s.outst[k] + B(CmdAck(c, s, i, k)) - B(Ack(c, s, i, k)))
  }

  function Next(c: Cfg, s: Regs, i: In): Regs
    requires Shaped(c, s, i)
  {
    var issue := Issues(c, s, i);
    Regs(OutstNext(c, s, i),
         if issue then s.tags[s.wptr := s.pick] else s.tags,
         if issue then Bump(s.wptr, c.depth) else s.wptr,
         if i.datValid then Bump(s.rptr, c.depth) else s.rptr,
         s.count + B(issue) - B(i.datValid),
         GrantNext(c, s, i),
         Choose(c, s, i, 0),
         exists k | 0 <= k < c.n :: Eligible(c, s, i, k),
         c.sticky && issue && i.last[s.pick])
  }

  class PipelinedArbiter {
    const c: Cfg
    var outst: seq<int>
    const tags: array<int>
    var wptr: int
    var rptr: int
    var count: int
    var grant: int
    var pick: int
    var armed: bool
    var bubble: bool

    function View(): Regs
      reads this, tags
    {
      Regs(outst, tags[..], wptr, rptr, count, grant, pick, armed, bubble)
    }

    constructor (c: Cfg)
      requires ValidCfg(c)
      ensures this.c == c && View() == Reset(c) && fresh(tags)
    {
      this.c := c;
      tags := new int[c.depth](_ => 0);
      outst, wptr, rptr, count := seq(c.n, k => 0), 0, 0, 0;
      grant, pick, armed, bubble := 0, 0, false, false;
    }

    /** The priority chain, searched from the far end of the rotation so that the nearest wins. */
    method PickChain(s: Regs, i: In) returns (r: int)
      requires Shaped(c, s, i)
      ensures r == Choose(c, s, i, 0)
    {
      r := Wrap(s.grant + c.n - 1, c.n);
      var k := c.n - 1;
      while k > 0
        invariant 0 <= k <= c.n - 1
        invariant r == Choose(c, s, i, k)
      {
        k := k - 1;
        var cand := Wrap(s.grant + k, c.n);
        if i.req[cand] && s.outst[cand] != c.per { r := cand; }
      }
    }

    /** The OR of all eligibility bits. */
    method AnyEligible(s: Regs, i: In) returns (any: bool)
      requires Shaped(c, s, i)
      ensures any == exists k | 0 <= k < c.n :: Eligible(c, s, i, k)
    {
      any := false;
      for k := 0 to c.n
        invariant any == exists j | 0 <= j < k :: Eligible(c, s, i, j)
      {
        any := any || (i.req[k] && s.outst[k] != c.per);
        assert i.req[k] && s.outst[k] != c.per <==> Eligible(c, s, i, k);
      }
    }

    /** Where the grant goes after an accepted command. */
    method MoveGrant(s: Regs, i: In) returns (g: int)
      requires Shaped(c, s, i) && Issues(c, s, i)
      ensures g == GrantNext(c, s, i)
    {
      if c.sticky {
        if !i.last[s.pick] {
          g := s.pick;
        } else if s.pick == c.n - 1 {
          g := 0;
        } else {
          g := s.pick + 1;
        }
      } else {
        g := Bump(s.grant, c.n);
      }
    }

    method Clock(i: In) returns (cmdValid: bool, cmdAdr: int, cmdAck: seq<bool>, ack: seq<bool>)
      requires Shaped(c, View(), i)
      modifies this, tags
      ensures View() == Next(c, old(View()), i)
      ensures cmdValid == CmdValid(c, old(View()), i) && cmdAdr == CmdAdr(c, old(View()), i)
      ensures cmdAck == CmdAcks(c, old(View()), i) && ack == Acks(c, old(View()), i)
    {
      var s := View();
      var picked := PickChain(s, i);
      var any := AnyEligible(s, i);
      cmdValid := armed && i.req[pick] && outst[pick] != c.per && count < c.depth && !bubble;
      cmdAdr := i.adr[pick];
      var issue := cmdValid && i.cmdReady;
      cmdAck, ack := CmdAcks(c, s, i), Acks(c, s, i);
      outst := OutstNext(c, s, i);
      bubble := c.sticky && issue && i.last[pick];
      if issue {
        grant := MoveGrant(s, i);
        tags[wptr] := pick;
        wptr := Bump(wptr, c.depth);
      }
      if i.datValid { rptr := Bump(rptr, c.depth); }
      count := count + B(issue) - B(i.datValid);
      pick, armed := picked, any;
    }
  }
}
