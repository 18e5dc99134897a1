/** internal/resources/endpointslice_cache.go: endpoint slices, indexed by service and then by slice name. */
module EndpointIndex {

  /** `uid` is that of the target reference, if the endpoint has one. */
  datatype Endpoint = Endpoint(hasTarget: bool, uid: string, addresses: seq<string>)

  /** `service` is the value of the label kubernetes.io/service-name, empty if the label is missing. */
  datatype EndpointSlice = EndpointSlice(name: string, service: string, endpoints: seq<Endpoint>)

  /** What an informer or a lookup may hand over: the program tests it for being an endpoint slice. */
  datatype Obj = Slice(slice: EndpointSlice) | Nil | Other

  type Slices = map<string, EndpointSlice>

  type View = map<string, Slices>

  // --- The operations on values ---

  function Entry(v: View, service: string): Slices {
    if service in v then v[service] else map[]
  }

  function Added(v: View, es: EndpointSlice): View {
    v[es.service := Entry(v, es.service)[es.name := es]]
  }

  /** An update whose new slice carries another label leaves both services as they are. */
  function Updated(v: View, before: EndpointSlice, after: EndpointSlice): View {
    var slices := Entry(v, before.service);
    v[before.service := if after.service == before.service then (slices - {before.name})[after.name := after]
                        else slices]
  }

  /** The index after a deletion; a service that has lost its last slice is removed. */
  function Deleted(v: View, es: EndpointSlice): View {
    if es.service !in v then v
    else
      var rest := v[es.service] - {es.name};
      if rest == map[] then v - {es.service} else v[es.service := rest]
  }

  /** Storing the entry of a service once more, changed, is what the operations come to. */
  lemma StoreTwice(v: View, es: EndpointSlice, after: EndpointSlice)
    ensures v[es.service := Entry(v, es.service)][es.service := Entry(v, es.service)[es.name := es]] == Added(v, es)
    ensures v[es.service := Entry(v, es.service)]
             [es.service := if after.service == es.service then (Entry(v, es.service) - {es.name})[after.name := after]
                            else Entry(v, es.service)]
         == Updated(v, es, after)
  {}

  /** Whether deleting a slice reaches for an entry that has just been removed. */
  predicate RemovesService(v: View, es: EndpointSlice) {
    es.service in v && v[es.service] - {es.name} == map[]
  }

  datatype Deletion = Ignored | Changed(service: string, deleteAll: bool) | NilDereference

  /** The endpoints of the slices in the given order. */
  function Joined(slices: Slices, order: seq<string>): seq<Endpoint>
    requires forall n :: n in order ==> n in slices
  {
    if order == [] then []
    else Joined(slices, order[..|order| - 1]) + slices[order[|order| - 1]].endpoints
  }

  /** An order in which a map may be iterated over: every key once. */
  ghost predicate IsOrder(slices: Slices, order: seq<string>) {
    && (forall n :: n in order <==> n in slices)
    && (forall i, j :: 0 <= i < j < |order| ==> order[i] != order[j])
  }

  class ServiceEntry {
    const serviceName: string
    var slices: Slices

    constructor (serviceName: string)
      ensures this.serviceName == serviceName && slices == map[]
    {
      this.serviceName := serviceName;
      slices := map[];
    }

    /** Joins the endpoints of all slices, in whatever order the map yields them. */
    method GetMerged() returns (merged: EndpointSlice, ghost order: seq<string>)
      ensures IsOrder(slices, order)
      ensures merged == EndpointSlice(serviceName, serviceName, Joined(slices, order))
    {
      var endpoints: seq<Endpoint> := [];
      order := [];
      var todo := slices.Keys;
      while todo != {}
        invariant todo <= slices.Keys
        invariant forall n :: n in order <==> n in slices && n !in todo
        invariant forall i, j :: 0 <= i < j < |order| ==> order[i] != order[j]
        invariant endpoints == Joined(slices, order)
        decreases todo
      {
        var n :| n in todo;
        todo := todo - {n};
        endpoints := endpoints + slices[n].endpoints;
        assert (order + [n])[..|order|] == order;
        order := order + [n];
      }
      merged := EndpointSlice(serviceName, serviceName, endpoints);
    }

    method OnAdded(es: EndpointSlice)
      modifies this
      ensures slices == if es.service == serviceName then old(slices)[es.name := es] else old(slices)
    {
      if es.service != serviceName {
        return;
      }
      slices := slices[es.name := es];
    }

    method OnDelete(es: EndpointSlice)
      modifies this
      ensures slices == if es.service == serviceName then old(slices) - {es.name} else old(slices)
    {
      if es.service != serviceName {
        return;
      }
      slices := slices - {es.name};
    }

    method OnUpdate(oldEs: EndpointSlice, newEs: EndpointSlice)
      modifies this
      ensures slices == if oldEs.service == serviceName && newEs.service == serviceName
                        then (old(slices) - {oldEs.name})[newEs.name := newEs] else old(slices)
    {
      if oldEs.service != serviceName {
        return;
      }
      if newEs.service != serviceName {
        return;
      }
      slices := slices - {oldEs.name};
      slices := slices[newEs.name := newEs];
    }
  }

  class EndpointSliceCache {
    var entries: map<string, ServiceEntry>
    /** What the index holds, as a value. */
    ghost var Contents: View
    ghost var Repr: set<ServiceEntry>

    ghost predicate Valid()
      reads this, Repr
    {
      && entries.Keys == Contents.Keys
      && forall s :: s in entries ==>
           entries[s] in Repr && entries[s].serviceName == s && entries[s].slices == Contents[s]
    }

    constructor ()
      ensures Valid() && Contents == map[] && Repr == {}
    {
      entries := map[];
      Contents := map[];
      Repr := {};
    }

    /** The entry of a service, made on first use. */
    method EntryOf(service: string) returns (entry: ServiceEntry)
      requires Valid()
      modifies this
      ensures Valid() && fresh(Repr - old(Repr)) && old(Repr) <= Repr
      ensures Contents == old(Contents)[service := Entry(old(Contents), service)]
      ensures service in entries && entry == entries[service]
    {
      if service !in entries {
        entry := new ServiceEntry(service);
        entries := entries[service := entry];
        Repr := Repr + {entry};
        Contents := Contents[service := map[]];
      }
      entry := entries[service];
    }

    /** Everything but the entry of one service, which has just been changed, is in order. */
    ghost predicate ValidExcept(service: string)
      reads this, Repr
    {
      && entries.Keys == Contents.Keys && service in entries
      && forall s :: s in entries ==>
           entries[s] in Repr && entries[s].serviceName == s && (s == service || entries[s].slices == Contents[s])
    }

    ghost method Follow(service: string)
      requires ValidExcept(service)
      modifies this`Contents
      ensures Valid() && Contents == old(Contents)[service := entries[service].slices]
    {
      Contents := Contents[service := entries[service].slices];
    }

    method OnAdded(obj: Obj) returns (changed: bool, service: string)
      requires Valid()
      modifies this, Repr
      ensures Valid() && fresh(Repr - old(Repr))
      ensures changed <==> obj.Slice?
      ensures Contents == if obj.Slice? then Added(old(Contents), obj.slice) else old(Contents)
      ensures service == if obj.Slice? then obj.slice.service else ""
    {
      hide Entry, Added;
      if !obj.Slice? {
        return false, "";
      }
      StoreTwice(Contents, obj.slice, obj.slice);
      service := obj.slice.service;
      var entry := EntryOf(service);
      entry.OnAdded(obj.slice);
      Follow(service);
      changed := true;
    }

    method OnUpdate(oldObj: Obj, newObj: Obj) returns (changed: bool, service: string)
      requires Valid()
      modifies this, Repr
      ensures Valid() && fresh(Repr - old(Repr))
      ensures changed <==> oldObj.Slice? && newObj.Slice?
      ensures Contents == if changed then Updated(old(Contents), oldObj.slice, newObj.slice) else old(Contents)
      ensures service == if changed then oldObj.slice.service else ""
    {
      hide Entry, Updated;
      if !oldObj.Slice? || !newObj.Slice? {
        return false, "";
      }
      StoreTwice(Contents, oldObj.slice, newObj.slice);
      service := oldObj.slice.service;
      var entry := EntryOf(service);
      entry.OnUpdate(oldObj.slice, newObj.slice);
      Follow(service);
      changed := true;
    }

    /** Deleting the last slice of a service removes the entry and then reads from it. */
    method OnDelete(obj: Obj) returns (result: Deletion)
      requires Valid()
      modifies this, Repr
      ensures Valid() && Repr == old(Repr)
      ensures Contents == if obj.Slice? then Deleted(old(Contents), obj.slice) else old(Contents)
      ensures result == if !obj.Slice? || obj.slice.service !in old(Contents) then Ignored
                        else if RemovesService(old(Contents), obj.slice) then NilDereference
                        else Changed(obj.slice.service, false)
    {
      if !obj.Slice? {
        return Ignored;
      }
      var service := obj.slice.service;
      if service !in entries {
        return Ignored;
      }
      entries[service].OnDelete(obj.slice);
      Follow(service);
      if entries[service].slices == map[] {
        entries := entries - {service};
        Contents := Contents - {service};
      }
      if service !in entries {
        return NilDereference;
      }
      result := Changed(service, entries[service].slices == map[]);
    }

    method GetCache(service: string) returns (merged: Obj, found: bool, ghost order: seq<string>)
      requires Valid()
      ensures found <==> service in Contents
      ensures found ==> IsOrder(Contents[service], order)
                          && merged == Slice(EndpointSlice(service, service, Joined(Contents[service], order)))
      ensures !found ==> merged == Nil
    {
      if service !in entries {
        return Nil, false, [];
      }
      var es, o := entries[service].GetMerged();
      return Slice(es), true, o;
    }
  }
}

/** The two-level index against a flat one. */
module IndexAgreement {
  import opened EndpointIndex

  type Flat = map<(string, string), EndpointSlice>

  datatype Op =
    | Add(slice: EndpointSlice)
    | Update(before: EndpointSlice, slice: EndpointSlice)
    | Delete(slice: EndpointSlice)

  function Key(es: EndpointSlice): (string, string) {
    (es.service, es.name)
  }

  /** The latest slice of every service and name. */
  function ApplyFlat(f: Flat, op: Op): Flat {
    match op
    case Add(es) => f[Key(es) := es]
    case Update(b, es) => (f - {Key(b)})[Key(es) := es]
    case Delete(es) => f - {Key(es)}
  }

  function Apply(v: View, op: Op): View {
    match op
    case Add(es) => Added(v, es)
    case Update(b, es) => Updated(v, b, es)
    case Delete(es) => Deleted(v, es)
  }

  function RunFlat(ops: seq<Op>): Flat {
    if ops == [] then map[] else ApplyFlat(RunFlat(ops[..|ops| - 1]), ops[|ops| - 1])
  }

  function ApplyAll(v: View, ops: seq<Op>): View {
    if ops == [] then v else Apply(ApplyAll(v, ops[..|ops| - 1]), ops[|ops| - 1])
  }

  function Run(ops: seq<Op>): View {
    ApplyAll(map[], ops)
  }

  /** The index groups the flat map by service. */
  ghost predicate Agrees(v: View, f: Flat) {
    && (forall s, n :: (s, n) in f <==> s in v && n in v[s])
    && (forall s, n :: s in v && n in v[s] ==> v[s][n] == f[(s, n)])
  }

  ghost predicate NoneEmpty(v: View) {
    forall s :: s in v ==> v[s] != map[]
  }

  /** A slice other than this one, of the same service, in the flat map. */
  ghost predicate Accompanied(f: Flat, es: EndpointSlice) {
    exists n :: n != es.name && (es.service, n) in f
  }

  /** What is asked of an operation: an update keeps the label, and a deletion leaves its service a slice,
      or is about a service that has none. */
  ghost predicate Regular(f: Flat, op: Op) {
    match op
    case Add(_) => true
    case Update(b, es) => b.service == es.service
    case Delete(es) => Accompanied(f, es) || forall n :: (es.service, n) !in f
  }

  lemma OnlyMember<K, V>(m: map<K, V>, k: K)
    ensures m - {k} == map[] <==> forall j :: j in m ==> j == k
  {
    assert forall j :: j in m && j != k ==> j in m - {k};
  }

  lemma ServiceKnown(v: View, f: Flat, s: string)
    requires Agrees(v, f) && NoneEmpty(v)
    ensures s in v <==> exists n :: (s, n) in f
  {}

  lemma EmptyAgrees()
    ensures Agrees(map[], map[]) && NoneEmpty(map[])
  {}

  lemma AddAgrees(v: View, f: Flat, es: EndpointSlice)
    requires Agrees(v, f) && NoneEmpty(v)
    ensures Agrees(Added(v, es), f[Key(es) := es]) && NoneEmpty(Added(v, es))
  {}

  lemma UpdateAgrees(v: View, f: Flat, b: EndpointSlice, es: EndpointSlice)
    requires Agrees(v, f) && b.service == es.service
    ensures Agrees(Updated(v, b, es), (f - {Key(b)})[Key(es) := es])
    ensures NoneEmpty(v) ==> NoneEmpty(Updated(v, b, es))
  {}

  lemma DeleteAgrees(v: View, f: Flat, es: EndpointSlice)
    requires Agrees(v, f) && NoneEmpty(v)
    ensures Agrees(Deleted(v, es), f - {Key(es)}) && NoneEmpty(Deleted(v, es))
  {
    if es.service in v {
      OnlyMember(v[es.service], es.name);
    }
  }

  /** Deleting a slice dereferences nil exactly when the index has an entry for its service, and no slice of
      the service but possibly this one. */
  lemma DeleteFailsIffLast(v: View, f: Flat, es: EndpointSlice)
    requires Agrees(v, f)
    ensures RemovesService(v, es) <==> es.service in v && !Accompanied(f, es)
  {
    if es.service in v {
      OnlyMember(v[es.service], es.name);
    }
  }

  lemma StepAgrees(v: View, f: Flat, op: Op)
    requires Agrees(v, f) && NoneEmpty(v) && Regular(f, op)
    ensures Agrees(Apply(v, op), ApplyFlat(f, op)) && NoneEmpty(Apply(v, op))
    ensures op.Delete? ==> !RemovesService(v, op.slice)
  {
    hide Agrees, NoneEmpty, RemovesService, Added, Updated, Deleted;
    match op {
      case Add(es) => AddAgrees(v, f, es);
      case Update(b, es) => UpdateAgrees(v, f, b, es);
      case Delete(es) =>
        DeleteAgrees(v, f, es);
        DeleteFailsIffLast(v, f, es);
        ServiceKnown(v, f, es.service);
    }
  }

  /** After any run of regular operations the index is the flat map grouped by service, no service is
      empty, and no deletion has reached for a removed entry. */
  lemma {:induction false} IndexAgreesWithFlatMap(ops: seq<Op>)
    requires forall i :: 0 <= i < |ops| ==> Regular(RunFlat(ops[..i]), ops[i])
    ensures Agrees(Run(ops), RunFlat(ops)) && NoneEmpty(Run(ops))
    ensures forall i :: 0 <= i < |ops| && ops[i].Delete? ==> !RemovesService(Run(ops[..i]), ops[i].slice)
  {
    hide Agrees, NoneEmpty, Regular, Apply, ApplyFlat, RemovesService;
    if ops == [] {
      EmptyAgrees();
    } else {
      var init, n := ops[..|ops| - 1], |ops| - 1;
      forall i | 0 <= i < n ensures init[..i] == ops[..i] {}
      IndexAgreesWithFlatMap(init);
      StepAgrees(Run(init), RunFlat(init), ops[n]);
      forall i | 0 <= i < |ops| && ops[i].Delete? ensures !RemovesService(Run(ops[..i]), ops[i].slice) {
        if i < n {
          assert ops[i] == init[i];
        }
      }
    }
  }

  /** An update keeps the index in step with the flat map, and without empty entries, exactly when it keeps
      the label, or when it changes nothing in the flat map and its old service is known. */
  lemma UpdateAgreesIff(v: View, f: Flat, b: EndpointSlice, es: EndpointSlice)
    requires Agrees(v, f) && NoneEmpty(v)
    ensures Agrees(Updated(v, b, es), ApplyFlat(f, Update(b, es))) && NoneEmpty(Updated(v, b, es))
       <==> b.service == es.service || (Key(b) !in f && Key(es) in f && f[Key(es)] == es && b.service in v)
  {
    hide Agrees, NoneEmpty, Updated;
    if b.service == es.service {
      UpdateAgrees(v, f, b, es);
    } else {
      RelabelAgreesIff(v, f, b, es);
      RelabelEmptyIff(v, b, es);
    }
  }

  /** An update that changes the label leaves the index holding what it held. */
  lemma RelabelAgreesIff(v: View, f: Flat, b: EndpointSlice, es: EndpointSlice)
    requires Agrees(v, f) && b.service != es.service
    ensures Agrees(Updated(v, b, es), (f - {Key(b)})[Key(es) := es])
       <==> Key(b) !in f && Key(es) in f && f[Key(es)] == es
  {}

  lemma RelabelEmptyIff(v: View, b: EndpointSlice, es: EndpointSlice)
    requires NoneEmpty(v) && b.service != es.service
    ensures NoneEmpty(Updated(v, b, es)) <==> b.service in v
  {
    assert b.service in Updated(v, b, es);
  }

  /** The service whose entry an operation touches. */
  function About(op: Op): string {
    if op.Update? then op.before.service else op.slice.service
  }

  lemma {:induction false} OthersKeepEntry(v: View, ops: seq<Op>, service: string)
    requires service in v && forall i :: 0 <= i < |ops| ==> About(ops[i]) != service
    ensures service in ApplyAll(v, ops) && ApplyAll(v, ops)[service] == v[service]
  {
    if ops != [] {
      OthersKeepEntry(v, ops[..|ops| - 1], service);
    }
  }

  /** An update away from an unknown service makes an empty entry for it. Whatever happens to other services in
      between, the next operation about that service dereferences nil if it is a deletion, although the flat
      map holds no slice of the service. */
  lemma RelabelLeavesTrap(v: View, f: Flat, b: EndpointSlice, es: EndpointSlice, ops: seq<Op>, d: EndpointSlice)
    requires Agrees(v, f) && b.service !in v && b.service != es.service && d.service == b.service
    requires forall i :: 0 <= i < |ops| ==> About(ops[i]) != b.service
    ensures RemovesService(ApplyAll(Updated(v, b, es), ops), d)
    ensures forall n :: (d.service, n) !in ApplyFlat(f, Update(b, es))
  {
    OthersKeepEntry(Updated(v, b, es), ops, b.service);
  }
}
