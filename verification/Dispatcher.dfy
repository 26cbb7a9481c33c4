/** The result dispatcher: a bounded queue with a policy for results that find no room, and the
    list of sinks of each session. */
module Dispatcher {
  import opened Basics

  datatype Speech = Speech(text: string, isFinal: bool, tsStart: int, tsEnd: int, confidence: nat, language: string,
                           number: nat)

  datatype Media = NoMedia | Media(terminations: string)

  datatype Result = Result(sessionID: string, streamID: string, sourceType: string, media: Media, speech: Speech)

  // ---- Sending on a bounded queue ----

  /** Outcome of a select that sends: the result enters, is dropped, has to wait, or its sender
      gives up because the context is done. */
  datatype Offer = Enters | Drops | Waits | GivesUp

  /** Room and a done context may both be there: then the select picks either. */
  function Offered(room: bool, done: bool, prefersDone: bool, mayDrop: bool): Offer {
    if room && !(done && prefersDone) then Enters
    else if done then GivesUp
    else if mayDrop then Drops
    else Waits
  }

  // ---- Sinks ----

  const HTTP := "http_callback"

  datatype Sink = Sink(kind: string, target: string)

  function SinksOf(sinks: map<string, seq<Sink>>, id: string): seq<Sink> {
    if id in sinks then sinks[id] else []
  }

  function OtherKinds(list: seq<Sink>): seq<Sink> {
    if list == [] then []
    else
      var n := |list| - 1;
      OtherKinds(list[..n]) + if list[n].kind != HTTP then [list[n]] else []
  }

  function HttpCount(list: seq<Sink>): nat {
    if list == [] then 0 else HttpCount(list[..|list| - 1]) + if list[|list| - 1].kind == HTTP then 1 else 0
  }

  /** The HTTP callbacks of a list replaced by the new one, if any. */
  function ReplacedIn(list: seq<Sink>, url: Option<string>): seq<Sink> {
    if url.Some? then OtherKinds(list) + [Sink(HTTP, url.value)] else OtherKinds(list)
  }

  /** A session without sinks has no entry. */
  function Replaced(sinks: map<string, seq<Sink>>, id: string, url: Option<string>): map<string, seq<Sink>> {
    var list := ReplacedIn(SinksOf(sinks, id), url);
    if list == [] then sinks - {id} else sinks[id := list]
  }

  lemma {:induction false} OtherKindsHasNoHttp(list: seq<Sink>)
    ensures HttpCount(OtherKinds(list)) == 0 && OtherKinds(OtherKinds(list)) == OtherKinds(list)
  {
    if list != [] {
      var n := |list| - 1;
      OtherKindsHasNoHttp(list[..n]);
      if list[n].kind != HTTP {
        assert OtherKinds(list)[..|OtherKinds(list)| - 1] == OtherKinds(list[..n]);
      } else {
        assert OtherKinds(list) == OtherKinds(list[..n]);
      }
    }
  }

  /** The filter of the sinks that are no HTTP callbacks: one by one, in order. */
  lemma {:induction false} OtherKindsIsFilter(a: seq<Sink>, b: seq<Sink>, s: Sink)
    ensures OtherKinds([s]) == if s.kind == "http_callback" then [] else [s]
    ensures OtherKinds(a + b) == OtherKinds(a) + OtherKinds(b)
    decreases |b|
  {
    hide OtherKinds;
    LastOfKinds([], s);
    if b == [] {
      assert a + b == a;
      NoKinds();
    } else {
      var init, last := b[..|b| - 1], b[|b| - 1];
      OtherKindsIsFilter(a, init, s);
      assert a + b == a + init + [last] && b == init + [last];
      LastOfKinds(a + init, last);
      LastOfKinds(init, last);
    }
  }

  lemma NoKinds()
    ensures OtherKinds([]) == []
  {
  }

  lemma LastOfKinds(list: seq<Sink>, s: Sink)
    ensures OtherKinds(list + [s]) == OtherKinds(list) + if s.kind == "http_callback" then [] else [s]
    ensures list == [] ==> list + [s] == [s] && OtherKinds(list) == []
  {
    assert (list + [s])[..|list|] == list;
  }

  lemma ReplacedInSupersedes(list: seq<Sink>, url: Option<string>, later: Option<string>)
    ensures HttpCount(ReplacedIn(list, url)) == if url.Some? then 1 else 0
    ensures OtherKinds(ReplacedIn(list, url)) == OtherKinds(list)
    ensures ReplacedIn(ReplacedIn(list, url), later) == ReplacedIn(list, later)
  {
    OtherKindsHasNoHttp(list);
    var others := OtherKinds(list);
    if url.Some? {
      var with := others + [Sink(HTTP, url.value)];
      assert with[..|with| - 1] == others;
      assert OtherKinds(with) == OtherKinds(others);
    }
  }

  lemma NewCallbackIsLast(list: seq<Sink>, url: Option<string>)
    ensures var after := ReplacedIn(list, url);
            url.Some? ==> after != [] && after[|after| - 1] == Sink("http_callback", url.value)
  {
    hide OtherKinds;
  }

  /** Replacing leaves at most one HTTP callback, keeps the other sinks in order and the other
      sessions; a second replacement supersedes the first. */
  lemma ReplacingSupersedes(sinks: map<string, seq<Sink>>, id: string, url: Option<string>, later: Option<string>)
    ensures var list := SinksOf(Replaced(sinks, id, url), id);
            && HttpCount(list) == (if url.Some? then 1 else 0)
            && OtherKinds(list) == OtherKinds(SinksOf(sinks, id))
            && (url.Some? ==> list != [] && list[|list| - 1] == Sink("http_callback", url.value))
    ensures Replaced(sinks, id, url) - {id} == sinks - {id}
    ensures id in Replaced(sinks, id, url) <==> url.Some? || OtherKinds(SinksOf(sinks, id)) != []
    ensures Replaced(Replaced(sinks, id, url), id, later) == Replaced(sinks, id, later)
  {
    var list, with := SinksOf(sinks, id), Replaced(sinks, id, url);
    ReplacedInSupersedes(list, url, later);
    NewCallbackIsLast(list, url);
    ReplacedTable(sinks, id, url);
    ReplacedTable(with, id, later);
    ReplacedTable(sinks, id, later);
    assert ReplacedIn(list, url) == [] <==> url.None? && OtherKinds(list) == [];
    hide Replaced, ReplacedIn, OtherKinds, HttpCount;
    SameTable(Replaced(with, id, later), Replaced(sinks, id, later), id);
  }

  lemma ReplacedTable(sinks: map<string, seq<Sink>>, id: string, url: Option<string>)
    ensures var after := Replaced(sinks, id, url);
            && SinksOf(after, id) == ReplacedIn(SinksOf(sinks, id), url)
            && (id in after <==> SinksOf(after, id) != [])
            && after - {id} == sinks - {id}
  {
    hide ReplacedIn;
  }

  lemma SameTable(a: map<string, seq<Sink>>, b: map<string, seq<Sink>>, id: string)
    requires a - {id} == b - {id} && SinksOf(a, id) == SinksOf(b, id) && (id in a <==> id in b)
    ensures a == b
  {
    assert forall x :: x in a && x != id ==> x in a - {id} && a[x] == (a - {id})[x];
    assert forall x :: x in b && x != id ==> x in b - {id} && b[x] == (b - {id})[x];
  }

  // ---- The dispatcher object ----

  /** What happens at one sink: the dispatcher shuts down before it, or the sink accepts or fails. */
  datatype Delivery = Delivery(shutdown: bool, accepted: bool)

  function Accepted(world: nat -> Delivery, n: nat): (c: nat)
    ensures c <= n
  {
    if n == 0 then 0 else Accepted(world, n - 1) + if world(n - 1).accepted then 1 else 0
  }

  lemma {:induction false} AcceptedIsCount(world: nat -> Delivery, n: nat)
    ensures Accepted(world, n) == |set j: nat | j < n && world(j).accepted|
  {
    if n > 0 {
      AcceptedIsCount(world, n - 1);
      var before := set j: nat | j < n - 1 && world(j).accepted;
      assert (set j: nat | j < n && world(j).accepted) == before + if world(n - 1).accepted then {n - 1} else {};
    }
  }

  class ResultDispatcher {
    const queueSize: nat
    const dropPartialWhenFull: bool
    var queue: seq<Result>
    var sinks: map<string, seq<Sink>>
    var pushed: nat
    var dropped: nat
    var sent: nat
    var sentPartial: nat
    var sentFinal: nat
    var sendErrors: nat

    ghost predicate Valid()
      reads this
    {
      |queue| <= queueSize && sent == sentPartial + sentFinal
    }

    constructor (queueSize: nat, dropPartialWhenFull: bool)
      ensures Valid() && queue == [] && sinks == map[] && pushed == dropped == sent == sendErrors == 0
      ensures this.queueSize == queueSize && this.dropPartialWhenFull == dropPartialWhenFull
    {
      this.queueSize, this.dropPartialWhenFull := queueSize, dropPartialWhenFull;
      queue, sinks, pushed, dropped, sent, sentPartial, sentFinal, sendErrors := [], map[], 0, 0, 0, 0, 0, 0;
    }

    /** A result is dropped at once only if it is partial, the policy allows it and the queue is
        full; any other one waits until a worker takes the head of the queue or the context ends.
        `taken` is what workers took while it waited. */
    method Push(r: Result, done: bool, prefersDone: bool, endsWaiting: bool) returns (offer: Offer, taken: seq<Result>)
      requires Valid()
      modifies this`queue, this`pushed, this`dropped
      ensures Valid()
      ensures offer != Waits && pushed == old(pushed) + 1
      ensures dropped == old(dropped) + if offer.Enters? then 0 else 1
      ensures taken + queue == old(queue) + if offer.Enters? then [r] else []
      ensures offer.Drops? <==> !r.speech.isFinal && dropPartialWhenFull && |old(queue)| == queueSize && !done
      ensures offer.GivesUp? <==>
                if done then |old(queue)| == queueSize || prefersDone
                else |old(queue)| == queueSize && (r.speech.isFinal || !dropPartialWhenFull) && endsWaiting
      ensures |taken| == if offer.Enters? && |old(queue)| == queueSize then 1 else 0
    {
      pushed := pushed + 1;
      taken := [];
      offer := Offered(|queue| < queueSize, done, prefersDone, dropPartialWhenFull && !r.speech.isFinal);
      match offer
      case Enters => queue := queue + [r];
      case GivesUp => dropped := dropped + 1;
      case Drops => dropped := dropped + 1;
      case Waits =>
        if endsWaiting {
          dropped := dropped + 1;
          return GivesUp, [];
        }
        var waiting := queue + [r];
        taken := waiting[..1];
        queue := waiting[1..];
        offer := Enters;
    }

    /** Tries the session's sinks in order until the dispatcher shuts down; every attempt counts
        once, as sent or as an error. */
    method Dispatch(r: Result, world: nat -> Delivery) returns (tried: nat)
      requires Valid()
      modifies this`sent, this`sentPartial, this`sentFinal, this`sendErrors
      ensures Valid()
      ensures tried <= |SinksOf(sinks, r.sessionID)|
      ensures forall j: nat :: j < tried ==> !world(j).shutdown
      ensures tried < |SinksOf(sinks, r.sessionID)| ==> world(tried).shutdown
      ensures sent == old(sent) + |set j: nat | j < tried && world(j).accepted|
      ensures sent + sendErrors == old(sent + sendErrors) + tried
      ensures if r.speech.isFinal then sentPartial == old(sentPartial) else sentFinal == old(sentFinal)
    {
      var list := SinksOf(sinks, r.sessionID);
      tried := 0;
      while tried < |list|
        invariant Valid()
        invariant tried <= |list|
        invariant forall j: nat :: j < tried ==> !world(j).shutdown
        invariant sent == old(sent) + Accepted(world, tried)
        invariant sendErrors == old(sendErrors) + tried - Accepted(world, tried)
        invariant if r.speech.isFinal then sentPartial == old(sentPartial) else sentFinal == old(sentFinal)
      {
        if world(tried).shutdown {
          AcceptedIsCount(world, tried);
          return;
        }
        if !world(tried).accepted {
          sendErrors := sendErrors + 1;
        } else {
          sent := sent + 1;
          if r.speech.isFinal {
            sentFinal := sentFinal + 1;
          } else {
            sentPartial := sentPartial + 1;
          }
        }
        tried := tried + 1;
      }
      AcceptedIsCount(world, tried);
    }

    method RegisterSink(id: string, sink: Sink)
      requires Valid()
      modifies this`sinks
      ensures Valid() && sinks.Keys == old(sinks.Keys) + {id}
      ensures forall x :: SinksOf(sinks, x) == SinksOf(old(sinks), x) + if x == id then [sink] else []
    {
      sinks := sinks[id := SinksOf(sinks, id) + [sink]];
    }

    method UnregisterSinks(id: string)
      requires Valid()
      modifies this`sinks
      ensures Valid() && sinks.Keys == old(sinks.Keys) - {id}
      ensures forall x :: SinksOf(sinks, x) == if x == id then [] else SinksOf(old(sinks), x)
    {
      sinks := sinks - {id};
    }

    method ReplaceHTTPSink(id: string, url: Option<string>)
      requires Valid()
      modifies this`sinks
      ensures Valid() && sinks == Replaced(old(sinks), id, url)
    {
      var list := SinksOf(sinks, id);
      var filtered: seq<Sink> := [];
      for i := 0 to |list|
        invariant filtered == OtherKinds(list[..i])
      {
        assert list[..i + 1][..i] == list[..i];
        if list[i].kind != HTTP {
          filtered := filtered + [list[i]];
        }
      }
      assert list[..|list|] == list;
      if url.Some? {
        filtered := filtered + [Sink(HTTP, url.value)];
      }
      assert filtered == ReplacedIn(list, url);
      if |filtered| == 0 {
        sinks := sinks - {id};
      } else {
        sinks := sinks[id := filtered];
      }
    }
  }
}
