/** The executor's poll round: leased items become dispatches up to a limit per function,
    and the others are put back. */
module Polling {

  datatype Leased = Leased(id: nat, functionId: string)

  /** The items of one function, in order. */
  function Of(items: seq<Leased>, f: string): (r: seq<Leased>)
    ensures |r| <= |items|
  {
    if items == [] then [] else
      Of(items[..|items| - 1], f) + (if items[|items| - 1].functionId == f then [items[|items| - 1]] else [])
  }

  lemma OfSnoc(items: seq<Leased>, x: Leased, f: string)
    ensures Of(items + [x], f) == Of(items, f) + (if x.functionId == f then [x] else [])
  {
    assert (items + [x])[..|items|] == items;
  }

  /** What a round makes of the items of `f`, `busy` dispatches of it being in flight: the
      first ones start, the rest is put back, and that only at the limit. */
  predicate Shared(items: seq<Leased>, started: seq<Leased>, deferred: seq<Leased>, f: string, busy: nat, limit: nat) {
    && Of(started, f) + Of(deferred, f) == Of(items, f)
    && busy + |Of(started, f)| <= limit
    && (Of(deferred, f) != [] ==> busy + |Of(started, f)| == limit)
  }

  lemma SharedStart(items: seq<Leased>, started: seq<Leased>, deferred: seq<Leased>, f: string, busy: nat, limit: nat, x: Leased)
    requires Shared(items, started, deferred, f, busy, limit) && (x.functionId == f ==> busy + |Of(started, f)| < limit)
    ensures Shared(items + [x], started + [x], deferred, f, busy, limit)
  {
    OfSnoc(items, x, f);
    OfSnoc(started, x, f);
  }

  lemma SharedDefer(items: seq<Leased>, started: seq<Leased>, deferred: seq<Leased>, f: string, busy: nat, limit: nat, x: Leased)
    requires Shared(items, started, deferred, f, busy, limit) && (x.functionId == f ==> busy + |Of(started, f)| >= limit)
    ensures Shared(items + [x], started, deferred + [x], f, busy, limit)
  {
    OfSnoc(items, x, f);
    OfSnoc(deferred, x, f);
    if x.functionId == f {
      assert Of(started, f) + (Of(deferred, f) + [x]) == (Of(started, f) + Of(deferred, f)) + [x];
    }
  }

  function Busy(inFlight: map<string, nat>, f: string): nat {
    if f in inFlight then inFlight[f] else 0
  }

  class Poller {
    const concurrency: nat
    var inFlight: map<string, nat>

    constructor (concurrency: nat)
      requires concurrency > 0
      ensures Valid() && this.concurrency == concurrency && inFlight == map[]
    {
      this.concurrency, inFlight := concurrency, map[];
    }

    /** No function has more dispatches in flight than the limit. */
    ghost predicate Valid()
      reads this
    {
      forall f :: Busy(inFlight, f) <= concurrency
    }

    /** One item: started, or put back if its function is at the limit. */
    method Take(x: Leased) returns (started: bool)
      requires Valid()
      modifies this
      ensures Valid() && (started <==> Busy(old(inFlight), x.functionId) < concurrency)
      ensures inFlight == if started then old(inFlight)[x.functionId := Busy(old(inFlight), x.functionId) + 1] else old(inFlight)
    {
      var busy := Busy(inFlight, x.functionId);
      if busy >= concurrency {
        return false;
      }
      ghost var was := inFlight;
      inFlight := inFlight[x.functionId := busy + 1];
      forall f ensures Busy(inFlight, f) <= concurrency {
        assert Busy(was, f) <= concurrency;
      }
      started := true;
    }

    /** One round over a leased batch. Of every function the first items start, in order,
        until its limit is reached; exactly the others are put back. */
    method Round(items: seq<Leased>) returns (started: seq<Leased>, deferred: seq<Leased>)
      requires Valid()
      modifies this
      ensures Valid()
      ensures forall f :: Shared(items, started, deferred, f, Busy(old(inFlight), f), concurrency)
      ensures forall f :: Busy(inFlight, f) == Busy(old(inFlight), f) + |Of(started, f)|
    {
      started, deferred := [], [];
      ghost var was := inFlight;
      for i := 0 to |items|
        invariant Valid()
        invariant forall f :: Shared(items[..i], started, deferred, f, Busy(was, f), concurrency)
        invariant forall f :: Busy(inFlight, f) == Busy(was, f) + |Of(started, f)|
      {
        var x := items[i];
        assert items[..i + 1] == items[..i] + [x];
        var ok := Take(x);
        if ok {
          forall f ensures Shared(items[..i + 1], started + [x], deferred, f, Busy(was, f), concurrency)
                        && Busy(inFlight, f) == Busy(was, f) + |Of(started + [x], f)| {
            SharedStart(items[..i], started, deferred, f, Busy(was, f), concurrency, x);
            OfSnoc(started, x, f);
          }
          started := started + [x];
        } else {
          forall f ensures Shared(items[..i + 1], started, deferred + [x], f, Busy(was, f), concurrency) {
            SharedDefer(items[..i], started, deferred, f, Busy(was, f), concurrency, x);
          }
          deferred := deferred + [x];
        }
      }
      assert items[..|items|] == items;
    }

    /** A dispatch of `f` ends. */
    method Done(f: string)
      requires Valid() && Busy(inFlight, f) > 0
      modifies this
      ensures Valid() && inFlight == old(inFlight)[f := Busy(old(inFlight), f) - 1]
    {
      ghost var was := inFlight;
      inFlight := inFlight[f := inFlight[f] - 1];
      forall g ensures Busy(inFlight, g) <= concurrency {
        assert Busy(was, g) <= concurrency;
      }
    }
  }
}
