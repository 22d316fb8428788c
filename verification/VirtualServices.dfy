/** The Istio VirtualService and the patch that sets its two traffic weights. */
module VirtualServices {
  import opened Wrappers

  // One element of spec.http[0].route. Opaque: an element that is not a map.
  // rest stands for every key other than destination.host and weight.
  datatype Entry = Opaque | Destination(host: Option<string>, weight: Option<int>, rest: string)

  // One element of spec.http. Malformed: not a map. route is absent when it is missing or not a list.
  datatype HttpRoute = Malformed | HttpRoute(route: Option<seq<Entry>>, rest: string)

  // http is absent when spec.http is missing or not a list; rest stands for every other key of the object.
  datatype VirtualService = VirtualService(http: Option<seq<HttpRoute>>, rest: string)

  /** What happened to a write: accepted, refused, or accepted with the reply lost, which the caller
      sees as an error. */
  datatype WriteOutcome = Acknowledged | Rejected | LostAck

  datatype Patch = Patch(stableHost: string, stableWeight: int, canaryHost: string, canaryWeight: int)

  // ---------------------------------------------------------------- the rewrite on values

  function HostOf(e: Entry): string {
    if e.Destination? && e.host.Some? then e.host.value else ""
  }

  function Rewrite(e: Entry, p: Patch): Entry {
    if e.Opaque? then e
    else if HostOf(e) == p.stableHost then e.(weight := Some(p.stableWeight))
    else if HostOf(e) == p.canaryHost then e.(weight := Some(p.canaryWeight))
    else e
  }

  function RewriteAll(routes: seq<Entry>, p: Patch): seq<Entry> {
    if routes == [] then [] else RewriteAll(routes[..|routes| - 1], p) + [Rewrite(routes[|routes| - 1], p)]
  }

  // The entries the patch works on: those of the first HTTP route, when there are any.
  function FirstRoute(vs: VirtualService): Option<seq<Entry>> {
    if vs.http == None || vs.http.value == [] || vs.http.value[0].Malformed? then None
    else vs.http.value[0].route
  }

  function WithFirstRoute(vs: VirtualService, routes: seq<Entry>): VirtualService
    requires FirstRoute(vs).Some?
  {
    var http := vs.http.value;
    vs.(http := Some(http[0 := http[0].(route := Some(routes))]))
  }

  // The patched object, or None when the object has no route list to patch.
  function Patched(vs: VirtualService, p: Patch): Option<VirtualService> {
    match FirstRoute(vs)
    case None => None
    case Some(routes) => Some(WithFirstRoute(vs, RewriteAll(routes, p)))
  }

  // ---------------------------------------------------------------- the patch in place

  method RewriteInPlace(routes: array<Entry>, p: Patch)
    modifies routes
    ensures routes[..] == RewriteAll(old(routes[..]), p)
  {
    var i := 0;
    while i < routes.Length
      invariant 0 <= i <= routes.Length
      invariant routes[..i] == RewriteAll(old(routes[..i]), p)
      invariant routes[i..] == old(routes[i..])
    {
      assert old(routes[..i + 1])[..i] == old(routes[..i]);
      assert routes[i] == old(routes[i..])[0];
      var route := routes[i];
      if route.Destination? {
        var host := HostOf(route);
        if host == p.stableHost {
          route := route.(weight := Some(p.stableWeight));
        } else if host == p.canaryHost {
          route := route.(weight := Some(p.canaryWeight));
        }
        routes[i] := route;
      }
      assert routes[..i + 1] == routes[..i] + [Rewrite(old(routes[i]), p)];
      i := i + 1;
    }
    assert old(routes[..routes.Length]) == old(routes[..]);
    assert routes[..routes.Length] == routes[..];
  }

  datatype PatchResult = PatchResult(vs: VirtualService, ok: bool)

  // What the API server holds after a patch attempt, and whether the caller was told it succeeded.
  function Attempt(vs: VirtualService, p: Patch, readOk: bool, write: WriteOutcome): PatchResult {
    if !readOk || Patched(vs, p) == None then PatchResult(vs, false)
    else PatchResult(if write == Rejected then vs else Patched(vs, p).value, write == Acknowledged)
  }

  // ---------------------------------------------------------------- what a patch may touch

  // The object has a list spec.http whose first element is a map with a list of routes.
  predicate Patchable(vs: VirtualService) {
    vs.http.Some? && |vs.http.value| > 0 && vs.http.value[0].HttpRoute? && vs.http.value[0].route.Some?
  }

  // A map keeps everything but its weight; the weight is that of its host, if its host is one of the two. An entry
  // without a host counts as one with an empty name, and the stable host comes first.
  predicate EntryPatched(e: Entry, e': Entry, p: Patch) {
    if e.Opaque? then e' == e
    else
      var host := if e.host.Some? then e.host.value else "";
      e' == Destination(
        e.host,
        if host == p.stableHost then Some(p.stableWeight)
        else if host == p.canaryHost then Some(p.canaryWeight)
        else e.weight,
        e.rest)
  }

  // Only weights in the first HTTP route have changed: not the other routes, not what else the first one says, not
  // the rest of the object.
  ghost predicate OnlyWeightsPatched(vs: VirtualService, vs': VirtualService, p: Patch)
    requires Patchable(vs)
  {
    vs'.rest == vs.rest && Patchable(vs') && |vs'.http.value| == |vs.http.value|
    && vs'.http.value[1..] == vs.http.value[1..] && vs'.http.value[0].rest == vs.http.value[0].rest
    && var es, es' := vs.http.value[0].route.value, vs'.http.value[0].route.value;
       |es'| == |es| && forall i :: 0 <= i < |es| ==> EntryPatched(es[i], es'[i], p)
  }

  lemma {:induction false} RewriteEntries(routes: seq<Entry>, p: Patch)
    ensures |RewriteAll(routes, p)| == |routes|
    ensures forall i :: 0 <= i < |routes| ==> EntryPatched(routes[i], RewriteAll(routes, p)[i], p)
  {
    if routes == [] {
    } else {
      RewriteEntries(routes[..|routes| - 1], p);
    }
  }

  /** An attempt succeeds exactly when the object can be read and patched and the write is acknowledged; and unless the
      object cannot be read or patched or the write is rejected, it changes those weights and nothing else. */
  lemma AttemptMeans(vs: VirtualService, p: Patch, readOk: bool, write: WriteOutcome)
    ensures var a := Attempt(vs, p, readOk, write);
      (a.ok <==> readOk && Patchable(vs) && write == Acknowledged)
      && (if readOk && Patchable(vs) && write != Rejected then OnlyWeightsPatched(vs, a.vs, p) else a.vs == vs)
  {
    if Patchable(vs) {
      RewriteEntries(vs.http.value[0].route.value, p);
    }
  }

  /** The API server's copy of the object. */
  class Mesh {
    var vs: VirtualService

    constructor (vs: VirtualService)
      ensures this.vs == vs
    {
      this.vs := vs;
    }

    method SetVirtualServiceWeights(p: Patch, readOk: bool, write: WriteOutcome) returns (ok: bool)
      modifies this
      ensures PatchResult(vs, ok) == Attempt(old(vs), p, readOk, write)
      ensures ok <==> readOk && Patchable(old(vs)) && write == Acknowledged
      ensures if readOk && Patchable(old(vs)) && write != Rejected then OnlyWeightsPatched(old(vs), vs, p)
              else vs == old(vs)
    {
      AttemptMeans(vs, p, readOk, write);
      if !readOk {
        return false;
      }
      var copy := vs;
      if copy.http == None || copy.http.value == [] {
        return false;
      }
      var firstRoute := copy.http.value[0];
      if firstRoute.Malformed? || firstRoute.route == None {
        return false;
      }
      var entries := firstRoute.route.value;
      var routes := new Entry[|entries|](i requires 0 <= i < |entries| => entries[i]);
      assert routes[..] == entries;
      RewriteInPlace(routes, p);
      firstRoute := firstRoute.(route := Some(routes[..]));
      copy := copy.(http := Some(copy.http.value[0 := firstRoute]));
      if write != Rejected {
        vs := copy;
      }
      return write == Acknowledged;
    }
  }

  // ---------------------------------------------------------------- laws of the patch

  function Hit(e: Entry, host: string): nat {
    if e.Destination? && HostOf(e) == host then 1 else 0
  }

  // An absent weight counts as zero.
  function Weight(e: Entry, host: string): int {
    if e.Destination? && HostOf(e) == host && e.weight.Some? then e.weight.value else 0
  }

  function Count(routes: seq<Entry>, host: string): nat {
    if routes == [] then 0
    else Count(routes[..|routes| - 1], host) + Hit(routes[|routes| - 1], host)
  }

  // The traffic weight a host receives from a route list.
  function Share(routes: seq<Entry>, host: string): int {
    if routes == [] then 0
    else Share(routes[..|routes| - 1], host) + Weight(routes[|routes| - 1], host)
  }

  /** Length and order stay, and an entry changes in nothing but the weight of one of the two hosts. */
  lemma {:induction false} RewriteFrame(routes: seq<Entry>, p: Patch)
    ensures var out := RewriteAll(routes, p);
      |out| == |routes|
      && (forall i :: 0 <= i < |routes| ==>
            out[i] == Rewrite(routes[i], p) && HostOf(out[i]) == HostOf(routes[i])
            && out[i].Opaque? == routes[i].Opaque?)
      && (forall i :: 0 <= i < |routes| ==>
            HostOf(routes[i]) != p.stableHost && HostOf(routes[i]) != p.canaryHost ==> out[i] == routes[i])
      && (forall i :: 0 <= i < |routes| ==> out[i].Destination? ==> out[i].rest == routes[i].rest)
  {
    if routes == [] {
    } else {
      RewriteFrame(routes[..|routes| - 1], p);
    }
  }

  // What a host with c entries carries after the patch, given what it carried before.
  function Carried(p: Patch, host: string, c: nat, before: int): int {
    if host == p.stableHost then c * p.stableWeight
    else if host == p.canaryHost then c * p.canaryWeight
    else before
  }

  lemma RewriteEntry(e: Entry, p: Patch, host: string)
    ensures Hit(Rewrite(e, p), host) == Hit(e, host)
    ensures Weight(Rewrite(e, p), host) == Carried(p, host, Hit(e, host), Weight(e, host))
  {}

  lemma CarriedAdds(p: Patch, host: string, c: nat, h: nat, x: int, y: int)
    requires h <= 1
    ensures Carried(p, host, c + h, x + y) == Carried(p, host, c, x) + Carried(p, host, h, y)
  {}

  lemma SharesSnoc(front: seq<Entry>, last: Entry, host: string)
    ensures Count(front + [last], host) == Count(front, host) + Hit(last, host)
    ensures Share(front + [last], host) == Share(front, host) + Weight(last, host)
  {
    assert (front + [last])[..|front|] == front;
  }

  /** After the patch each of the two hosts carries exactly its weight per entry, any other host what it had. */
  lemma {:induction false} RewriteShares(routes: seq<Entry>, p: Patch, host: string)
    ensures var out := RewriteAll(routes, p);
      Count(out, host) == Count(routes, host)
      && Share(out, host) == Carried(p, host, Count(routes, host), Share(routes, host))
  {
    if routes == [] {
    } else {
      var front, last := routes[..|routes| - 1], routes[|routes| - 1];
      assert routes == front + [last];
      RewriteShares(front, p, host);
      RewriteEntry(last, p, host);
      SharesSnoc(front, last, host);
      SharesSnoc(RewriteAll(front, p), Rewrite(last, p), host);
      CarriedAdds(p, host, Count(front, host), Hit(last, host), Share(front, host), Weight(last, host));
    }
  }

  function Complementary(stableHost: string, canaryHost: string, canaryWeight: int): Patch {
    Patch(stableHost, 100 - canaryWeight, canaryHost, canaryWeight)
  }

  // What the two hosts receive together.
  function Total(routes: seq<Entry>, stableHost: string, canaryHost: string): int {
    Share(routes, stableHost) + Share(routes, canaryHost)
  }

  function Split100(c: nat, d: nat, w: int): int {
    c * (100 - w) + d * w
  }

  lemma Splits(c: nat, d: nat)
    ensures Split100(c, d, 0) == 100 * c && Split100(c, d, 100) == 100 * d
    ensures c == 1 && d == 1 ==> forall w :: Split100(c, d, w) == 100
  {}

  lemma CarriedSplit(stableHost: string, canaryHost: string, c: nat, d: nat, w: int, x: int, y: int)
    requires stableHost != canaryHost
    ensures var p := Complementary(stableHost, canaryHost, w);
      Carried(p, stableHost, c, x) + Carried(p, canaryHost, d, y) == Split100(c, d, w)
  {}

  lemma PatchedTotal(routes: seq<Entry>, stableHost: string, canaryHost: string, w: int)
    requires stableHost != canaryHost
    ensures Total(RewriteAll(routes, Complementary(stableHost, canaryHost, w)), stableHost, canaryHost)
            == Split100(Count(routes, stableHost), Count(routes, canaryHost), w)
  {
    RewriteShares(routes, Complementary(stableHost, canaryHost, w), stableHost);
    RewriteShares(routes, Complementary(stableHost, canaryHost, w), canaryHost);
    CarriedSplit(stableHost, canaryHost, Count(routes, stableHost), Count(routes, canaryHost), w,
                 Share(routes, stableHost), Share(routes, canaryHost));
  }

  /** Complementary weights make the two hosts' traffic total 100 whatever the canary weight, exactly when
      each host has one entry. */
  lemma WeightsTotal100(routes: seq<Entry>, stableHost: string, canaryHost: string)
    requires stableHost != canaryHost
    ensures (forall w: int ::
               Total(RewriteAll(routes, Complementary(stableHost, canaryHost, w)), stableHost, canaryHost) == 100)
            <==> Count(routes, stableHost) == 1 && Count(routes, canaryHost) == 1
  {
    var c, d := Count(routes, stableHost), Count(routes, canaryHost);
    if c == 1 && d == 1 {
      forall w: int
        ensures Total(RewriteAll(routes, Complementary(stableHost, canaryHost, w)), stableHost, canaryHost) == 100
      {
        PatchedTotal(routes, stableHost, canaryHost, w);
        Splits(1, 1);
      }
    } else {
      PatchedTotal(routes, stableHost, canaryHost, 0);
      PatchedTotal(routes, stableHost, canaryHost, 100);
      Splits(c, d);
    }
  }

  lemma {:induction false} RewriteTwice(routes: seq<Entry>, p: Patch, q: Patch)
    requires p.stableHost == q.stableHost && p.canaryHost == q.canaryHost
    ensures RewriteAll(RewriteAll(routes, p), q) == RewriteAll(routes, q)
  {
    if routes == [] {
    } else {
      var n := |routes| - 1;
      RewriteTwice(routes[..n], p, q);
      assert RewriteAll(routes, p)[..n] == RewriteAll(routes[..n], p) by {
        RewriteFrame(routes[..n], p);
      }
      RewriteFrame(routes, p);
    }
  }

  // A history of successful patches, oldest first.
  function PatchHistory(vs: VirtualService, ps: seq<Patch>): Option<VirtualService> {
    if ps == [] then Some(vs)
    else match PatchHistory(vs, ps[..|ps| - 1])
         case None => None
         case Some(v) => Patched(v, ps[|ps| - 1])
  }

  // The same object up to weights in its first HTTP route.
  ghost predicate SameButWeights(vs: VirtualService, vs': VirtualService) {
    vs'.rest == vs.rest && (!Patchable(vs) ==> vs' == vs)
    && (Patchable(vs) ==>
          Patchable(vs') && |vs'.http.value| == |vs.http.value|
          && vs'.http.value[1..] == vs.http.value[1..] && vs'.http.value[0].rest == vs.http.value[0].rest
          && var es, es' := vs.http.value[0].route.value, vs'.http.value[0].route.value;
             |es'| == |es|
             && forall i :: 0 <= i < |es| ==>
                  if es[i].Opaque? then es'[i] == es[i]
                  else es'[i].Destination? && es'[i].host == es[i].host && es'[i].rest == es[i].rest)
  }

  lemma AttemptKeeps(vs: VirtualService, p: Patch, readOk: bool, write: WriteOutcome)
    ensures SameButWeights(vs, Attempt(vs, p, readOk, write).vs)
  {
    AttemptMeans(vs, p, readOk, write);
    if readOk && Patchable(vs) && write != Rejected {
      var es, es' := vs.http.value[0].route.value, Attempt(vs, p, readOk, write).vs.http.value[0].route.value;
      forall i | 0 <= i < |es|
        ensures if es[i].Opaque? then es'[i] == es[i]
                else es'[i].Destination? && es'[i].host == es[i].host && es'[i].rest == es[i].rest
      {
        assert EntryPatched(es[i], es'[i], p);
      }
    }
  }

  lemma SameButWeightsTrans(a: VirtualService, b: VirtualService, c: VirtualService)
    requires SameButWeights(a, b) && SameButWeights(b, c)
    ensures SameButWeights(a, c)
  {}

  lemma ReplaceTwice(vs: VirtualService, a: seq<Entry>, c: seq<Entry>)
    requires FirstRoute(vs).Some?
    ensures FirstRoute(WithFirstRoute(vs, a)) == Some(a)
    ensures WithFirstRoute(WithFirstRoute(vs, a), c) == WithFirstRoute(vs, c)
  {
    assert WithFirstRoute(WithFirstRoute(vs, a), c).http.value == WithFirstRoute(vs, c).http.value;
  }

  /** The last of any sequence of patches of the same two hosts alone determines the object: nothing of an
      earlier step's weights survives, and the other HTTP routes never change. */
  lemma {:induction false} LastPatchWins(vs: VirtualService, ps: seq<Patch>)
    requires ps != []
    requires forall i :: 0 <= i < |ps| ==> ps[i].stableHost == ps[0].stableHost && ps[i].canaryHost == ps[0].canaryHost
    ensures PatchHistory(vs, ps) == Patched(vs, ps[|ps| - 1])
  {
    var n := |ps| - 1;
    if n == 0 {
    } else {
      var front := ps[..n];
      LastPatchWins(vs, front);
      if FirstRoute(vs).Some? {
        var routes := FirstRoute(vs).value;
        RewriteTwice(routes, front[n - 1], ps[n]);
        ReplaceTwice(vs, RewriteAll(routes, front[n - 1]), RewriteAll(routes, ps[n]));
      }
    }
  }
}
