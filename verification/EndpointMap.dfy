/** The endpoint map a sidecar is sent (internal/ctrl/utils/sidecar.go:76-88), and when it does not depend
    on the order in which the slices of a service are merged. */
module EndpointMaps {
  import opened EndpointIndex
  import opened Wrappers

  type Ips = map<string, seq<string>>

  datatype OpType = ADDED | MODIFIED | DELETED

  datatype ClientEvent = ClientEvent(op: OpType, endpoints: Ips)

  /** Endpoints by uid; of several with one uid the last one counts. */
  function ByUid(endpoints: seq<Endpoint>): Ips {
    if endpoints == [] then map[]
    else
      var last := endpoints[|endpoints| - 1];
      ByUid(endpoints[..|endpoints| - 1])[last.uid := last.addresses]
  }

  predicate AllTargeted(endpoints: seq<Endpoint>) {
    forall e :: e in endpoints ==> e.hasTarget
  }

  /** The event for a list of endpoints, if it can be built. */
  function Built(op: OpType, endpoints: seq<Endpoint>): Option<ClientEvent> {
    if AllTargeted(endpoints) then Some(ClientEvent(op, ByUid(endpoints))) else None
  }

  /** No event means that an endpoint without a target reference was dereferenced. */
  method NewClientSubscriptionEvent(op: OpType, es: EndpointSlice) returns (event: Option<ClientEvent>)
    ensures event == Built(op, es.endpoints)
    ensures event.None? <==> exists i :: 0 <= i < |es.endpoints| && !es.endpoints[i].hasTarget
    ensures event.Some? ==> event.value.op == op
  {
    var endpoints: Ips := map[];
    for i := 0 to |es.endpoints|
      invariant endpoints == ByUid(es.endpoints[..i]) && AllTargeted(es.endpoints[..i])
    {
      assert es.endpoints[..i + 1][..i] == es.endpoints[..i];
      assert es.endpoints[i] in es.endpoints;
      if !es.endpoints[i].hasTarget {
        return None;
      }
      endpoints := endpoints[es.endpoints[i].uid := es.endpoints[i].addresses];
    }
    assert es.endpoints[..|es.endpoints|] == es.endpoints;
    event := Some(ClientEvent(op, endpoints));
  }

  /** What ByUid yields: every uid that occurs, with the addresses of its last occurrence. */
  lemma {:induction false} ByUidIsLast(endpoints: seq<Endpoint>, uid: string)
    ensures uid in ByUid(endpoints) <==> exists i :: 0 <= i < |endpoints| && endpoints[i].uid == uid
    ensures forall i :: 0 <= i < |endpoints| && endpoints[i].uid == uid
                        && (forall j :: i < j < |endpoints| ==> endpoints[j].uid != uid)
                        ==> ByUid(endpoints)[uid] == endpoints[i].addresses
  {
    if endpoints != [] {
      var init, n := endpoints[..|endpoints| - 1], |endpoints| - 1;
      ByUidIsLast(init, uid);
      assert forall i :: 0 <= i < n ==> init[i] == endpoints[i];
      if uid in ByUid(init) {
        var i :| 0 <= i < |init| && init[i].uid == uid;
        assert endpoints[i].uid == uid;
      }
      if endpoints[n].uid == uid {
        assert 0 <= n < |endpoints| && endpoints[n].uid == uid;
      }
    }
  }

  lemma {:induction false} ByUidJoin(a: seq<Endpoint>, b: seq<Endpoint>)
    ensures ByUid(a + b) == ByUid(a) + ByUid(b)
  {
    if b == [] {
      assert a + b == a;
    } else {
      assert (a + b)[..|a + b| - 1] == a + b[..|b| - 1];
      ByUidJoin(a, b[..|b| - 1]);
    }
  }

  /** The map published for a service whose slices are merged in this order. */
  ghost function Published(slices: Slices, order: seq<string>): Ips
    requires forall n :: n in order ==> n in slices
  {
    ByUid(Joined(slices, order))
  }

  /** Two slices of the service give one uid different addresses. */
  ghost predicate Conflict(slices: Slices, m: string, n: string, uid: string) {
    && m in slices && n in slices
    && uid in ByUid(slices[m].endpoints) && uid in ByUid(slices[n].endpoints)
    && ByUid(slices[m].endpoints)[uid] != ByUid(slices[n].endpoints)[uid]
  }

  ghost predicate Consistent(slices: Slices) {
    forall m, n, uid :: !Conflict(slices, m, n, uid)
  }

  lemma {:induction false} PublishedFrom(slices: Slices, order: seq<string>, uid: string)
    requires forall n :: n in order ==> n in slices
    ensures uid in Published(slices, order)
       <==> exists n :: n in order && uid in ByUid(slices[n].endpoints)
    ensures uid in Published(slices, order) ==>
              exists n :: n in order && uid in ByUid(slices[n].endpoints)
                          && Published(slices, order)[uid] == ByUid(slices[n].endpoints)[uid]
  {
    if order != [] {
      var init, last := order[..|order| - 1], order[|order| - 1];
      PublishedFrom(slices, init, uid);
      ByUidJoin(Joined(slices, init), slices[last].endpoints);
      assert last in order && (forall n :: n in init ==> n in order);
      assert forall n :: n in order ==> n in init || n == last;
    }
  }

  /** The slice merged last decides. */
  lemma LastSliceDecides(slices: Slices, order: seq<string>, uid: string)
    requires forall n :: n in order ==> n in slices
    requires order != [] && uid in ByUid(slices[order[|order| - 1]].endpoints)
    ensures uid in Published(slices, order)
            && Published(slices, order)[uid] == ByUid(slices[order[|order| - 1]].endpoints)[uid]
  {
    ByUidJoin(Joined(slices, order[..|order| - 1]), slices[order[|order| - 1]].endpoints);
  }

  /** Some order has a given slice last. */
  lemma {:induction false} OrderEndingWith(slices: Slices, last: string) returns (order: seq<string>)
    requires last in slices
    ensures IsOrder(slices, order) && order != [] && order[|order| - 1] == last
    decreases |slices|
  {
    var rest := slices - {last};
    if n :| n in rest {
      assert |rest| < |slices|;
      var o := OrderEndingWith(rest, n);
      order := o + [last];
    } else {
      order := [last];
      assert forall n :: n in slices && n != last ==> n in rest;
    }
  }

  lemma ConsistentOrders(slices: Slices, o: seq<string>, p: seq<string>)
    requires Consistent(slices) && IsOrder(slices, o) && IsOrder(slices, p)
    ensures Published(slices, o) == Published(slices, p)
  {
    forall uid ensures uid in Published(slices, o) <==> uid in Published(slices, p) {
      PublishedFrom(slices, o, uid);
      PublishedFrom(slices, p, uid);
    }
    forall uid | uid in Published(slices, o) ensures Published(slices, o)[uid] == Published(slices, p)[uid] {
      PublishedFrom(slices, o, uid);
      PublishedFrom(slices, p, uid);
      var m :| m in o && uid in ByUid(slices[m].endpoints)
               && Published(slices, o)[uid] == ByUid(slices[m].endpoints)[uid];
      var n :| n in p && uid in ByUid(slices[n].endpoints)
               && Published(slices, p)[uid] == ByUid(slices[n].endpoints)[uid];
      assert !Conflict(slices, m, n, uid);
    }
  }

  /** The published map is the same for every iteration order exactly when no two slices of the service
      disagree about a uid. */
  lemma OrderIndependentIff(slices: Slices)
    ensures (forall o, p :: IsOrder(slices, o) && IsOrder(slices, p) ==> Published(slices, o) == Published(slices, p))
       <==> Consistent(slices)
  {
    if Consistent(slices) {
      forall o, p | IsOrder(slices, o) && IsOrder(slices, p) ensures Published(slices, o) == Published(slices, p) {
        ConsistentOrders(slices, o, p);
      }
    } else {
      var m, n, uid :| Conflict(slices, m, n, uid);
      var o := OrderEndingWith(slices, m);
      var p := OrderEndingWith(slices, n);
      LastSliceDecides(slices, o, uid);
      LastSliceDecides(slices, p, uid);
      assert IsOrder(slices, o) && IsOrder(slices, p) && Published(slices, o) != Published(slices, p);
    }
  }

  /** No uid occurs twice, in one slice or in two. */
  ghost predicate DistinctUids(slices: Slices) {
    forall m, n, i, j :: m in slices && n in slices
                         && 0 <= i < |slices[m].endpoints| && 0 <= j < |slices[n].endpoints|
                         && slices[m].endpoints[i].uid == slices[n].endpoints[j].uid
                         ==> m == n && i == j
  }

  /** With distinct uids an endpoint is found under its uid, in its own slice and in no other. */
  lemma DistinctUidFound(slices: Slices, n: string, i: nat)
    requires DistinctUids(slices) && n in slices && i < |slices[n].endpoints|
    ensures var e := slices[n].endpoints[i];
            && e.uid in ByUid(slices[n].endpoints) && ByUid(slices[n].endpoints)[e.uid] == e.addresses
            && forall m :: m in slices && e.uid in ByUid(slices[m].endpoints) ==> m == n
  {
    hide ByUid;
    var e := slices[n].endpoints[i];
    ByUidIsLast(slices[n].endpoints, e.uid);
    forall m | m in slices && e.uid in ByUid(slices[m].endpoints) ensures m == n {
      ByUidIsLast(slices[m].endpoints, e.uid);
    }
  }

  lemma DistinctUidsAreConsistent(slices: Slices)
    requires DistinctUids(slices)
    ensures Consistent(slices)
  {
    hide ByUid, DistinctUids;
    forall m, n, uid ensures !Conflict(slices, m, n, uid) {
      if m in slices && uid in ByUid(slices[m].endpoints) {
        ByUidIsLast(slices[m].endpoints, uid);
        var i :| 0 <= i < |slices[m].endpoints| && slices[m].endpoints[i].uid == uid;
        DistinctUidFound(slices, m, i);
      }
    }
  }

  lemma DistinctUidPublished(slices: Slices, order: seq<string>, n: string, i: nat)
    requires DistinctUids(slices) && IsOrder(slices, order) && n in slices && i < |slices[n].endpoints|
    ensures var e := slices[n].endpoints[i];
            e.uid in Published(slices, order) && Published(slices, order)[e.uid] == e.addresses
  {
    hide ByUid, DistinctUids, Published;
    DistinctUidFound(slices, n, i);
    PublishedFrom(slices, order, slices[n].endpoints[i].uid);
  }

  /** With distinct uids every order yields the same map: each endpoint of each slice with its addresses,
      and nothing else. */
  lemma DistinctUidsPublishAll(slices: Slices, order: seq<string>)
    requires DistinctUids(slices) && IsOrder(slices, order)
    ensures Consistent(slices)
    ensures forall uid :: uid in Published(slices, order)
                     <==> exists n, i :: n in slices && 0 <= i < |slices[n].endpoints|
                                         && slices[n].endpoints[i].uid == uid
    ensures forall n, i :: n in slices && 0 <= i < |slices[n].endpoints| ==>
              var e := slices[n].endpoints[i];
              e.uid in Published(slices, order) && Published(slices, order)[e.uid] == e.addresses
  {
    hide ByUid, DistinctUids, Published, Consistent;
    DistinctUidsAreConsistent(slices);
    forall n, i | n in slices && 0 <= i < |slices[n].endpoints|
      ensures var e := slices[n].endpoints[i];
              e.uid in Published(slices, order) && Published(slices, order)[e.uid] == e.addresses
    {
      DistinctUidPublished(slices, order, n, i);
    }
    forall uid | uid in Published(slices, order)
      ensures exists n, i :: n in slices && 0 <= i < |slices[n].endpoints| && slices[n].endpoints[i].uid == uid
    {
      PublishedFrom(slices, order, uid);
      var n :| n in order && uid in ByUid(slices[n].endpoints);
      ByUidIsLast(slices[n].endpoints, uid);
    }
  }
}
