// The WebSocket proxy's connection cap: asyncio handlers interleave at their awaits
// and share one Limiter.
module Limiters {
  import opened Models

  datatype State = State(total: int, perIp: map<string, int>)

  const EMPTY := State(0, map[])

  function CountFor(s: State, ip: string): int {
    if ip in s.perIp then s.perIp[ip] else 0
  }

  function Acquired(s: State, maxTotal: int): (bool, State) {
    if s.total >= maxTotal then (false, s) else (true, s.(total := s.total + 1))
  }

  function Charged(s: State, maxPerIp: int, ip: string): (bool, State) {
    if CountFor(s, ip) >= maxPerIp then (false, s)
    else (true, s.(perIp := s.perIp[ip := CountFor(s, ip) + 1]))
  }

  function Released(s: State, ip: Option<string>): State {
    var total := if s.total - 1 > 0 then s.total - 1 else 0;
    match ip
    case None => s.(total := total)
    case Some(a) =>
      var remaining := CountFor(s, a) - 1;
      State(total, if remaining <= 0 then s.perIp - {a} else s.perIp[a := remaining])
  }

  class Limiter {
    const maxTotal: int
    const maxPerIp: int
    var total: int
    var perIp: map<string, int>

    constructor (maxTotal: int, maxPerIp: int)
      ensures this.maxTotal == maxTotal && this.maxPerIp == maxPerIp && Value() == EMPTY
    {
      this.maxTotal, this.maxPerIp := maxTotal, maxPerIp;
      total, perIp := 0, map[];
    }

    function Value(): State
      reads this
    {
      State(total, perIp)
    }

    method AcquireSlot() returns (ok: bool)
      modifies this
      ensures ok <==> old(total) < maxTotal
      ensures total == old(total) + (if ok then 1 else 0) && perIp == old(perIp)
    {
      if total >= maxTotal {
        return false;
      }
      total := total + 1;
      return true;
    }

    method ChargeIp(ip: string) returns (ok: bool)
      modifies this
      ensures ok <==> CountFor(old(Value()), ip) < maxPerIp
      ensures CountFor(Value(), ip) == CountFor(old(Value()), ip) + (if ok then 1 else 0)
      ensures perIp - {ip} == old(perIp) - {ip} && total == old(total)
      ensures if ok then ip in perIp else perIp == old(perIp)
    {
      var held := if ip in perIp then perIp[ip] else 0;
      if held >= maxPerIp {
        return false;
      }
      perIp := perIp[ip := held + 1];
      assert perIp - {ip} == old(perIp) - {ip};
      return true;
    }

    method Release(ip: Option<string>)
      modifies this
      ensures total == if old(total) > 1 then old(total) - 1 else 0
      ensures ip.None? ==> perIp == old(perIp)
      ensures ip.Some? ==> perIp - {ip.value} == old(perIp) - {ip.value}
      ensures ip.Some? ==>
        var left := CountFor(old(Value()), ip.value) - 1;
        if left > 0 then ip.value in perIp && perIp[ip.value] == left else ip.value !in perIp
    {
      total := if total - 1 > 0 then total - 1 else 0;
      if ip.None? {
        return;
      }
      var remaining := (if ip.value in perIp then perIp[ip.value] else 0) - 1;
      if remaining <= 0 {
        perIp := perIp - {ip.value};
      } else {
        perIp := perIp[ip.value := remaining];
      }
      assert perIp - {ip.value} == old(perIp) - {ip.value};
    }
  }

  // Tables that agree off one address and have its count are the same.
  lemma SameTable(a: map<string, int>, b: map<string, int>, ip: string)
    requires a - {ip} == b - {ip} && (ip in a <==> ip in b) && (ip in a ==> a[ip] == b[ip])
    ensures a == b
  {
    forall k
      ensures k in a <==> k in b
      ensures k in a ==> a[k] == b[k]
    {
      assert k != ip ==> (k in a <==> k in a - {ip}) && (k in b <==> k in b - {ip});
    }
  }

  // ------------------------------------------------------------------------
  // Handlers
  // ------------------------------------------------------------------------

  // The await a handler is suspended at: reading the handshake, draining the 101
  // response, connecting to the backend, or piping.
  datatype Phase = Reading | Draining(ip: string) | Dialing(ip: string) | Piping(ip: string)
  {
    // The argument handle's finally clause passes to release.
    function ChargedTo(): Option<string> {
      match this
      case Reading => None
      case Draining(ip) => Some(ip)
      case Dialing(ip) => Some(ip)
      case Piping(ip) => Some(ip)
    }
  }

  datatype Proxy = Proxy(limiter: State, handlers: map<nat, Phase>)

  const IDLE := Proxy(EMPTY, map[])

  datatype Caps = Caps(maxTotal: int, maxPerIp: int)

  // One handler running from one await to the next. Ends covers every way out of an
  // await that leaves handle: an exception, a cancellation, the pipes finishing.
  datatype Step =
    | Connects(h: nat)
    | Identified(h: nat, ip: string)
    | Answered(h: nat)
    | Dialed(h: nat)
    | Ends(h: nat)

  predicate Enabled(p: Proxy, s: Step) {
    match s
    case Connects(h) => h !in p.handlers
    case Identified(h, _) => h in p.handlers && p.handlers[h].Reading?
    case Answered(h) => h in p.handlers && p.handlers[h].Draining?
    case Dialed(h) => h in p.handlers && p.handlers[h].Dialing?
    case Ends(h) => h in p.handlers
  }

  function Next(caps: Caps, p: Proxy, s: Step): Proxy
    requires Enabled(p, s)
  {
    match s
    case Connects(h) =>
      var (ok, l) := Acquired(p.limiter, caps.maxTotal);
      if ok then Proxy(l, p.handlers[h := Reading]) else p
    case Identified(h, ip) =>
      var (ok, l) := Charged(p.limiter, caps.maxPerIp, ip);
      if ok then Proxy(l, p.handlers[h := Draining(ip)])
      else Proxy(Released(p.limiter, None), p.handlers - {h})
    case Answered(h) => p.(handlers := p.handlers[h := Dialing(p.handlers[h].ip)])
    case Dialed(h) => p.(handlers := p.handlers[h := Piping(p.handlers[h].ip)])
    case Ends(h) => Proxy(Released(p.limiter, p.handlers[h].ChargedTo()), p.handlers - {h})
  }

  function HeldBy(handlers: map<nat, Phase>, ip: string): set<nat> {
    set h | h in handlers && handlers[h].ChargedTo() == Some(ip)
  }

  function AtLeastZero(n: int): nat {
    if n > 0 then n else 0
  }

  // The counters are exactly the live handlers, and within the caps.
  ghost predicate Ok(caps: Caps, p: Proxy) {
    && p.limiter.total == |p.handlers|
    && |p.handlers| <= AtLeastZero(caps.maxTotal)
    && (forall ip :: CountFor(p.limiter, ip) == |HeldBy(p.handlers, ip)|)
    && (forall ip :: |HeldBy(p.handlers, ip)| <= AtLeastZero(caps.maxPerIp))
    && (forall ip :: ip in p.limiter.perIp ==> p.limiter.perIp[ip] > 0)
  }

  predicate Run(caps: Caps, p: Proxy, steps: seq<Step>)
    decreases |steps|
  {
    steps != [] ==> Enabled(p, steps[0]) && Run(caps, Next(caps, p, steps[0]), steps[1..])
  }

  function After(caps: Caps, p: Proxy, steps: seq<Step>): Proxy
    requires Run(caps, p, steps)
    decreases |steps|
  {
    if steps == [] then p else After(caps, Next(caps, p, steps[0]), steps[1..])
  }

  function Holds(handlers: map<nat, Phase>, h: nat, ip: string): nat {
    if h in handlers && handlers[h].ChargedTo() == Some(ip) then 1 else 0
  }

  lemma HeldAfterPut(handlers: map<nat, Phase>, h: nat, phase: Phase, ip: string)
    ensures |HeldBy(handlers[h := phase], ip)|
         == |HeldBy(handlers, ip)| - Holds(handlers, h, ip) + if phase.ChargedTo() == Some(ip) then 1 else 0
  {
    var others := HeldBy(handlers, ip) - {h};
    assert HeldBy(handlers[h := phase], ip) == if phase.ChargedTo() == Some(ip) then others + {h} else others;
  }

  lemma HeldAfterDrop(handlers: map<nat, Phase>, h: nat, ip: string)
    ensures |HeldBy(handlers - {h}, ip)| == |HeldBy(handlers, ip)| - Holds(handlers, h, ip)
  {
    assert HeldBy(handlers - {h}, ip) == HeldBy(handlers, ip) - {h};
  }

  lemma NextOk(caps: Caps, p: Proxy, s: Step)
    requires Ok(caps, p) && Enabled(p, s)
    ensures Ok(caps, Next(caps, p, s))
  {
    hide HeldBy;
    var next := Next(caps, p, s);
    forall ip
      ensures CountFor(next.limiter, ip) == |HeldBy(next.handlers, ip)| <= AtLeastZero(caps.maxPerIp)
    {
      assert CountFor(p.limiter, ip) == |HeldBy(p.handlers, ip)|;
      NextHeld(caps, p, s, ip);
    }
    NextTotal(caps, p, s);
  }

  lemma NextTotal(caps: Caps, p: Proxy, s: Step)
    requires Ok(caps, p) && Enabled(p, s)
    ensures Next(caps, p, s).limiter.total == |Next(caps, p, s).handlers| <= AtLeastZero(caps.maxTotal)
  {
    hide HeldBy;
    assert s.Connects? ==> |p.handlers[s.h := Reading]| == |p.handlers| + 1;
    assert !s.Connects? ==> (p.handlers - {s.h}).Keys == p.handlers.Keys - {s.h};
  }

  lemma NextHeld(caps: Caps, p: Proxy, s: Step, ip: string)
    requires Ok(caps, p) && Enabled(p, s)
    ensures CountFor(Next(caps, p, s).limiter, ip)
            == |HeldBy(Next(caps, p, s).handlers, ip)| <= AtLeastZero(caps.maxPerIp)
  {
    hide HeldBy;
    var h := s.h;
    assert CountFor(p.limiter, ip) == |HeldBy(p.handlers, ip)| <= AtLeastZero(caps.maxPerIp);
    HeldAfterDrop(p.handlers, h, ip);
    match s
    case Connects(_) => HeldAfterPut(p.handlers, h, Reading, ip);
    case Identified(_, from) => HeldAfterPut(p.handlers, h, Draining(from), ip);
    case Answered(_) => HeldAfterPut(p.handlers, h, Dialing(p.handlers[h].ip), ip);
    case Dialed(_) => HeldAfterPut(p.handlers, h, Piping(p.handlers[h].ip), ip);
    case Ends(_) =>
  }

  // Whatever order handlers run in and wherever they fail, the counters count the
  // live handlers and the caps hold.
  lemma {:induction false} EveryRunOk(caps: Caps, p: Proxy, steps: seq<Step>)
    requires Ok(caps, p) && Run(caps, p, steps)
    ensures Ok(caps, After(caps, p, steps))
    decreases |steps|
  {
    if steps != [] {
      NextOk(caps, p, steps[0]);
      EveryRunOk(caps, Next(caps, p, steps[0]), steps[1..]);
    }
  }

  // No slot leaks: once every handler has ended, the limiter is as it started.
  lemma DrainedIsEmpty(caps: Caps, steps: seq<Step>)
    requires Run(caps, IDLE, steps)
    ensures After(caps, IDLE, steps).handlers == map[] ==> After(caps, IDLE, steps) == IDLE
  {
    IdleOk(caps);
    EveryRunOk(caps, IDLE, steps);
    var end := After(caps, IDLE, steps);
    if end.handlers == map[] {
      forall ip
        ensures ip !in end.limiter.perIp
      {
        assert HeldBy(end.handlers, ip) == {};
        assert CountFor(end.limiter, ip) == 0;
      }
    }
  }

  lemma IdleOk(caps: Caps)
    ensures Ok(caps, IDLE)
  {
    assert forall ip :: HeldBy(IDLE.handlers, ip) == {};
  }

  // In every reachable state a connection is turned away exactly when the cap's
  // worth of handlers is live, and an address exactly when it holds its share.
  lemma RejectedIffFull(caps: Caps, steps: seq<Step>, ip: string)
    requires Run(caps, IDLE, steps)
    ensures
      var p := After(caps, IDLE, steps);
      && (!Acquired(p.limiter, caps.maxTotal).0 <==> |p.handlers| >= caps.maxTotal)
      && (!Charged(p.limiter, caps.maxPerIp, ip).0 <==> |HeldBy(p.handlers, ip)| >= caps.maxPerIp)
  {
    IdleOk(caps);
    EveryRunOk(caps, IDLE, steps);
    assert CountFor(After(caps, IDLE, steps).limiter, ip) == |HeldBy(After(caps, IDLE, steps).handlers, ip)|;
  }

  // What a step does to the handlers: a connection gets in exactly below the cap, an
  // address is let on exactly below its share and is turned away otherwise, a handler
  // moves from await to await with its address, and no other handler moves.
  predicate StepMoves(caps: Caps, before: map<nat, Phase>, after: map<nat, Phase>, s: Step) {
    && before - {s.h} == after - {s.h}
    && match s
       case Connects(h) => if |before| < caps.maxTotal then h in after && after[h] == Reading else h !in after
       case Identified(h, ip) =>
         if |HeldBy(before, ip)| < caps.maxPerIp then h in after && after[h] == Draining(ip) else h !in after
       case Answered(h) => h in before && before[h].Draining? && h in after && after[h] == Dialing(before[h].ip)
       case Dialed(h) => h in before && before[h].Dialing? && h in after && after[h] == Piping(before[h].ip)
       case Ends(h) => h !in after
  }

  lemma NextMoves(caps: Caps, p: Proxy, s: Step)
    requires Ok(caps, p) && Enabled(p, s)
    ensures StepMoves(caps, p.handlers, Next(caps, p, s).handlers, s)
  {
    hide HeldBy, Released;
    if s.Identified? {
      assert CountFor(p.limiter, s.ip) == |HeldBy(p.handlers, s.ip)|;
    }
  }

  // What release would be without its clamp at zero and its tolerance for an
  // address that is not in the table.
  function Returned(s: State, ip: Option<string>): State {
    match ip
    case None => s.(total := s.total - 1)
    case Some(a) =>
      State(s.total - 1, if CountFor(s, a) == 1 then s.perIp - {a} else s.perIp[a := CountFor(s, a) - 1])
  }

  // The clamp in release never changes a value: every release pays back something
  // that was taken.
  lemma ClampNeverBites(caps: Caps, p: Proxy, h: nat)
    requires Ok(caps, p) && h in p.handlers
    ensures
      var ip := p.handlers[h].ChargedTo();
      && p.limiter.total >= 1
      && (ip.Some? ==> ip.value in p.limiter.perIp && p.limiter.perIp[ip.value] >= 1)
      && Released(p.limiter, ip) == Returned(p.limiter, ip)
  {
    assert |p.handlers| == |p.handlers.Keys|;
    assert h in p.handlers.Keys;
    var ip := p.handlers[h].ChargedTo();
    if ip.Some? {
      assert h in HeldBy(p.handlers, ip.value);
      assert CountFor(p.limiter, ip.value) == |HeldBy(p.handlers, ip.value)|;
    }
  }

  // handle, cut at its awaits: `ip` is the handler's local, its charge once made.
  class WsProxy {
    const limiter: Limiter
    var handlers: map<nat, Phase>

    constructor (maxTotal: int, maxPerIp: int)
      ensures fresh(limiter) && CapsOf() == Caps(maxTotal, maxPerIp) && Value() == IDLE
    {
      limiter := new Limiter(maxTotal, maxPerIp);
      handlers := map[];
    }

    function CapsOf(): Caps {
      Caps(limiter.maxTotal, limiter.maxPerIp)
    }

    function Value(): Proxy
      reads this, limiter
    {
      Proxy(limiter.Value(), handlers)
    }

    // However a handler runs on or ends, the counters stay exact and within the caps.
    method Take(s: Step)
      requires Enabled(Value(), s) && Ok(CapsOf(), Value())
      modifies this, limiter
      ensures Ok(CapsOf(), Value()) && Value() == Next(CapsOf(), old(Value()), s)
      ensures StepMoves(CapsOf(), old(handlers), handlers, s)
    {
      hide Ok, StepMoves;
      NextOk(CapsOf(), Value(), s);
      NextMoves(CapsOf(), Value(), s);
      match s
      case Connects(h) =>
        var ok := limiter.AcquireSlot();
        if ok {
          handlers := handlers[h := Reading];
        }
      case Identified(h, ip) =>
        ghost var was := limiter.Value();
        var ok := limiter.ChargeIp(ip);
        if ok {
          SameTable(limiter.perIp, was.perIp[ip := CountFor(was, ip) + 1], ip);
          handlers := handlers[h := Draining(ip)];
        } else {
          limiter.Release(None);
          handlers := handlers - {h};
        }
      case Answered(h) =>
        handlers := handlers[h := Dialing(handlers[h].ip)];
      case Dialed(h) =>
        handlers := handlers[h := Piping(handlers[h].ip)];
      case Ends(h) =>
        ghost var was := limiter.Value();
        var ip := handlers[h].ChargedTo();
        limiter.Release(ip);
        if ip.Some? {
          SameTable(limiter.perIp, Released(was, ip).perIp, ip.value);
        }
        handlers := handlers - {h};
    }
  }
}
