/** internal/ctrl/utils/sidecar.go: a subscriber's bounded channel behind a closed flag. */
module Sidecars {
  import opened EndpointIndex
  import opened EndpointMaps
  import opened Wrappers

  const CHANNEL_CAPACITY := 100

  /** The state of a channel: what is buffered, and whether it has been closed. */
  datatype Mailbox = Mailbox(buffer: seq<ClientEvent>, closed: bool)

  /** What Informer does to a mailbox: nothing once it is closed, and an event that finds no room is lost. */
  function Offered(m: Mailbox, e: ClientEvent): Mailbox {
    if m.closed || |m.buffer| >= CHANNEL_CAPACITY then m else m.(buffer := m.buffer + [e])
  }

  /** An event that could not be built changes nothing. */
  function Informed(m: Mailbox, e: Option<ClientEvent>): Mailbox {
    if e.Some? then Offered(m, e.value) else m
  }

  function Shut(m: Mailbox): Mailbox {
    m.(closed := true)
  }

  /** A Go channel. Sending on it once closed, or closing it again, would panic. */
  class Channel {
    const capacity: nat
    var buffer: seq<ClientEvent>
    var closed: bool
    /** The sidecar the channel was made for. */
    ghost var owner: object?

    constructor (capacity: nat)
      ensures this.capacity == capacity && buffer == [] && !closed
    {
      this.capacity := capacity;
      buffer, closed := [], false;
    }

    /** The non-blocking send of a select with a default. */
    method TrySend(e: ClientEvent) returns (sent: bool)
      requires !closed
      modifies this`buffer
      ensures sent <==> |old(buffer)| < capacity
      ensures buffer == if sent then old(buffer) + [e] else old(buffer)
    {
      sent := |buffer| < capacity;
      if sent {
        buffer := buffer + [e];
      }
    }

    method Close()
      requires !closed
      modifies this`closed
      ensures closed
    {
      closed := true;
    }
  }

  class Sidecar {
    const name: string
    const subServiceName: string
    const receiver: Channel
    var closed: bool

    /** The flag and the channel agree, which is what keeps Informer and Close from panicking. */
    ghost predicate Valid()
      reads this, receiver
    {
      && receiver.owner == this && closed == receiver.closed
      && receiver.capacity == CHANNEL_CAPACITY && |receiver.buffer| <= CHANNEL_CAPACITY
    }

    ghost function Box(): Mailbox
      reads this, receiver
    {
      Mailbox(receiver.buffer, closed)
    }

    constructor (name: string, subService: string)
      ensures Valid() && fresh(receiver) && Box() == Mailbox([], false)
      ensures this.name == name && subServiceName == subService
    {
      this.name, subServiceName := name, subService;
      receiver := new Channel(CHANNEL_CAPACITY);
      closed := false;
      new;
      receiver.owner := this;
    }

    /** Passes on slices of the subscribed service only; never blocks and never sends on a closed channel.
        Panics, before it touches the channel, if the event cannot be built. */
    method Informer(op: OpType, obj: Obj) returns (panicked: bool)
      requires Valid()
      modifies receiver`buffer
      ensures Valid()
      ensures panicked <==> obj.Slice? && obj.slice.service == subServiceName && Built(op, obj.slice.endpoints).None?
      ensures Box() == if obj.Slice? && obj.slice.service == subServiceName
                       then Informed(old(Box()), Built(op, obj.slice.endpoints)) else old(Box())
    {
      if obj.Nil? {
        return false;
      }
      if !obj.Slice? {
        return false;
      }
      if obj.slice.service != subServiceName {
        return false;
      }
      var event := NewClientSubscriptionEvent(op, obj.slice);
      if event.None? {
        return true;
      }
      if closed {
        return false;
      }
      var _ := receiver.TrySend(event.value);
      return false;
    }

    method Close()
      requires Valid()
      modifies this`closed, receiver`closed
      ensures Valid() && Box() == Shut(old(Box()))
    {
      if closed {
        return;
      }
      closed := true;
      receiver.Close();
    }
  }
}

/** internal/ctrl/grpcserver/server.go and distributer.go: the parts that run under the server's mutex, and
    internal/ctrl/reconciler/endpointslice_reconciler.go, which publishes through them. */
module GrpcServers {
  import opened EndpointIndex
  import opened EndpointMaps
  import opened Sidecars

  class GrpcServer {
    var sidecars: map<string, Sidecar>
    var ready: bool

    /** Every registered sidecar is in order. */
    ghost predicate Valid()
      reads this, sidecars.Values, set s | s in sidecars.Values :: s.receiver
    {
      forall id :: id in sidecars ==> sidecars[id].Valid()
    }

    constructor ()
      ensures sidecars == map[] && !ready
    {
      sidecars, ready := map[], false;
    }

    /** A registered sidecar that subscribes to the service, or null if there is none. */
    ghost predicate Chosen(s: Sidecar?, service: string)
      reads this
    {
      if s == null then forall id :: id in sidecars ==> sidecars[id].subServiceName != service
      else s in sidecars.Values && s.subServiceName == service
    }

    method GetSidecar(service: string) returns (found: Sidecar?)
      ensures Chosen(found, service)
      ensures found == null <==> forall id :: id in sidecars ==> sidecars[id].subServiceName != service
      ensures found != null ==> found in sidecars.Values && found.subServiceName == service
    {
      var todo := sidecars.Keys;
      while todo != {}
        invariant todo <= sidecars.Keys
        invariant forall id :: id in sidecars && id !in todo ==> sidecars[id].subServiceName != service
        decreases todo
      {
        var id :| id in todo;
        todo := todo - {id};
        if sidecars[id].subServiceName == service {
          return sidecars[id];
        }
      }
      return null;
    }

    /** The second readiness check of Subscribe and the registration, in one critical section. An id that is
        registered already is taken over. */
    method Register(sidecar: Sidecar) returns (ok: bool)
      requires Valid() && sidecar.Valid()
      modifies this`sidecars
      ensures Valid() && ok == ready
      ensures sidecars == if ready then old(sidecars)[sidecar.name := sidecar] else old(sidecars)
    {
      if !ready {
        return false;
      }
      sidecars := sidecars[sidecar.name := sidecar];
      ok := true;
    }

    /** The first part of Subscribe: refused when not ready; otherwise a fresh sidecar, not yet registered, gets
        the current slices of the service, as `listed` reports them. Register is the second part, and anything
        may happen between the two. */
    method Prepare(id: string, service: string, listed: Obj) returns (sidecar: Sidecar?, panicked: bool)
      ensures panicked <==> ready && listed.Slice? && listed.slice.service == service
                            && !AllTargeted(listed.slice.endpoints)
      ensures sidecar == null <==> !ready || panicked
      ensures sidecar != null ==>
                && fresh(sidecar) && fresh(sidecar.receiver) && sidecar.Valid()
                && sidecar.name == id && sidecar.subServiceName == service
                && sidecar.Box() == if listed.Slice? && listed.slice.service == service
                                    then Mailbox([ClientEvent(ADDED, ByUid(listed.slice.endpoints))], false)
                                    else Mailbox([], false)
    {
      if !ready {
        return null, false;
      }
      sidecar := new Sidecar(id, service);
      panicked := sidecar.Informer(ADDED, listed);
      if panicked {
        sidecar := null;
      }
    }

    /** What a handler does on its way out, whoever is registered under the id by then. */
    method Unregister(id: string)
      requires Valid()
      modifies this`sidecars
      ensures Valid() && sidecars == old(sidecars) - {id}
    {
      sidecars := sidecars - {id};
    }

    /** The registered sidecars, as a list. */
    method Receivers() returns (receivers: seq<Sidecar>)
      ensures forall s :: s in receivers ==> s in sidecars.Values
      ensures forall id :: id in sidecars ==> sidecars[id] in receivers
    {
      receivers := [];
      var todo := sidecars.Values;
      while todo != {}
        invariant todo <= sidecars.Values
        invariant forall s :: s in receivers <==> s in sidecars.Values && s !in todo
        decreases todo
      {
        var s :| s in todo;
        todo := todo - {s};
        receivers := receivers + [s];
      }
    }

    /** The critical section of the shutdown goroutine: no sidecar is admitted any more and every
        registered one is closed, with whatever it has buffered. */
    method Shutdown()
      requires Valid()
      modifies this`ready, sidecars.Values`closed, (set s | s in sidecars.Values :: s.receiver)`closed
      ensures Valid() && !ready
      ensures forall id :: id in sidecars ==> sidecars[id].Box() == Shut(old(sidecars[id].Box()))
    {
      ready := false;
      var receivers := Receivers();
      for i := 0 to |receivers|
        invariant Valid() && !ready
        invariant forall s :: s in receivers[..i] ==> s.closed
      {
        assert receivers[i] in sidecars.Values;
        receivers[i].Close();
        assert receivers[..i + 1] == receivers[..i] + [receivers[i]];
      }
      assert receivers[..|receivers|] == receivers;
    }

    /** Publish: at most one subscriber of the service is told. */
    method Publish(service: string, op: OpType, obj: Obj) returns (panicked: bool, ghost told: Sidecar?)
      requires Valid()
      modifies (set s | s in sidecars.Values :: s.receiver)`buffer
      ensures Valid() && Chosen(told, service)
      ensures panicked <==> told != null && obj.Slice? && obj.slice.service == service
                            && Built(op, obj.slice.endpoints).None?
      ensures told != null ==>
                told.Box() == if obj.Slice? && obj.slice.service == service
                              then Informed(old(told.Box()), Built(op, obj.slice.endpoints)) else old(told.Box())
      ensures forall s :: s in sidecars.Values && s != told ==> s.Box() == old(s.Box())
    {
      var sidecar := GetSidecar(service);
      told := sidecar;
      panicked := false;
      if sidecar != null {
        panicked := sidecar.Informer(op, obj);
      }
    }
  }
}

/** internal/ctrl/reconciler/endpointslice_reconciler.go: every change of the index is followed by publishing
    the whole merged service. */
module EndpointReconcilers {
  import opened EndpointIndex
  import opened EndpointMaps
  import opened Sidecars
  import opened GrpcServers

  /** A service is known after an addition to it and after an update of it. */
  lemma AboutService(v: View, es: EndpointSlice, after: EndpointSlice)
    ensures es.service in Added(v, es) && es.service in Updated(v, es, after)
  {}

  lemma DeletedKeeps(v: View, es: EndpointSlice)
    ensures es.service in v && !RemovesService(v, es) ==> es.service in Deleted(v, es)
  {}

  class EndpointSliceReconciler {
    const cache: EndpointSliceCache
    const distributer: GrpcServer

    ghost predicate Valid()
      reads this, cache, cache.Repr, distributer, distributer.sidecars.Values,
            set s | s in distributer.sidecars.Values :: s.receiver
    {
      cache.Valid() && distributer.Valid()
    }

    constructor (cache: EndpointSliceCache, distributer: GrpcServer)
      ensures this.cache == cache && this.distributer == distributer
    {
      this.cache, this.distributer := cache, distributer;
    }

    /** The merged service, if the index knows it, to one of its subscribers; `panicked` tells that the event
        could not be built. */
    method PublishMerged(service: string, op: OpType)
      returns (panicked: bool, ghost told: Sidecar?, ghost order: seq<string>)
      requires Valid()
      modifies (set s | s in distributer.sidecars.Values :: s.receiver)`buffer
      ensures Valid()
      ensures service !in cache.Contents ==> told == null && !panicked
      ensures service in cache.Contents ==>
                && distributer.Chosen(told, service) && IsOrder(cache.Contents[service], order)
                && var event := Built(op, Joined(cache.Contents[service], order));
                && (panicked <==> told != null && event.None?)
                && (told != null ==> told.Box() == Informed(old(told.Box()), event))
      ensures forall s :: s in distributer.sidecars.Values && s != told ==> s.Box() == old(s.Box())
    {
      hide EndpointSliceCache.Valid, GrpcServer.Valid, GrpcServer.Chosen, Sidecar.Box, Informed, Joined, Built, IsOrder;
      panicked, told, order := false, null, [];
      var merged, ok, o := cache.GetCache(service);
      if ok {
        order := o;
        panicked, told := distributer.Publish(service, op, merged);
      }
    }

    method OnAdded(obj: Obj) returns (panicked: bool, ghost told: Sidecar?, ghost order: seq<string>)
      requires Valid()
      modifies cache, cache.Repr, (set s | s in distributer.sidecars.Values :: s.receiver)`buffer
      ensures Valid()
      ensures !obj.Slice? ==> cache.Contents == old(cache.Contents) && told == null && !panicked
      ensures obj.Slice? ==>
                var service := obj.slice.service;
                && cache.Contents == Added(old(cache.Contents), obj.slice)
                && distributer.Chosen(told, service) && IsOrder(cache.Contents[service], order)
                && var event := Built(ADDED, Joined(cache.Contents[service], order));
                && (panicked <==> told != null && event.None?)
                && (told != null ==> told.Box() == Informed(old(told.Box()), event))
      ensures forall s :: s in distributer.sidecars.Values && s != told ==> s.Box() == old(s.Box())
    {
      hide EndpointSliceCache.Valid, GrpcServer.Valid, Sidecar.Box, Informed, Joined, Built, IsOrder, Added;
      panicked, told, order := false, null, [];
      var changed, service := cache.OnAdded(obj);
      if changed {
        AboutService(old(cache.Contents), obj.slice, obj.slice);
        panicked, told, order := PublishMerged(service, ADDED);
      }
    }

    method OnUpdated(oldObj: Obj, newObj: Obj) returns (panicked: bool, ghost told: Sidecar?, ghost order: seq<string>)
      requires Valid()
      modifies cache, cache.Repr, (set s | s in distributer.sidecars.Values :: s.receiver)`buffer
      ensures Valid()
      ensures !oldObj.Slice? || !newObj.Slice? ==> cache.Contents == old(cache.Contents) && told == null && !panicked
      ensures oldObj.Slice? && newObj.Slice? ==>
                var service := oldObj.slice.service;
                && cache.Contents == Updated(old(cache.Contents), oldObj.slice, newObj.slice)
                && distributer.Chosen(told, service) && IsOrder(cache.Contents[service], order)
                && var event := Built(MODIFIED, Joined(cache.Contents[service], order));
                && (panicked <==> told != null && event.None?)
                && (told != null ==> told.Box() == Informed(old(told.Box()), event))
      ensures forall s :: s in distributer.sidecars.Values && s != told ==> s.Box() == old(s.Box())
    {
      hide EndpointSliceCache.Valid, GrpcServer.Valid, Sidecar.Box, Informed, Joined, Built, IsOrder, Updated;
      panicked, told, order := false, null, [];
      var changed, service := cache.OnUpdate(oldObj, newObj);
      if changed {
        AboutService(old(cache.Contents), oldObj.slice, newObj.slice);
        panicked, told, order := PublishMerged(service, MODIFIED);
      }
    }

    /** DELETED, with the merged slices if there are any, if the whole service is gone; otherwise MODIFIED if
        the service is there. */
    method PublishDeletion(service: string, deleteAll: bool)
      returns (panicked: bool, ghost told: Sidecar?, ghost order: seq<string>)
      requires Valid()
      modifies (set s | s in distributer.sidecars.Values :: s.receiver)`buffer
      ensures Valid()
      ensures service !in cache.Contents ==>
                && !panicked && (!deleteAll ==> told == null)
                && (told != null ==> told in distributer.sidecars.Values && told.Box() == old(told.Box()))
      ensures service in cache.Contents ==>
                && distributer.Chosen(told, service) && IsOrder(cache.Contents[service], order)
                && var event := Built(if deleteAll then DELETED else MODIFIED, Joined(cache.Contents[service], order));
                && (panicked <==> told != null && event.None?)
                && (told != null ==> told.Box() == Informed(old(told.Box()), event))
      ensures forall s :: s in distributer.sidecars.Values && s != told ==> s.Box() == old(s.Box())
    {
      hide EndpointSliceCache.Valid, GrpcServer.Valid, GrpcServer.Chosen, Sidecar.Box, Informed, Joined, Built, IsOrder;
      panicked, told, order := false, null, [];
      var merged, ok, o := cache.GetCache(service);
      order := o;
      if deleteAll {
        panicked, told := distributer.Publish(service, DELETED, merged);
        return;
      }
      if ok {
        panicked, told := distributer.Publish(service, MODIFIED, merged);
      }
    }

    /** `trapped` tells that the deletion reached for the entry it had just removed. */
    method OnDeleted(obj: Obj)
      returns (trapped: bool, panicked: bool, ghost told: Sidecar?, ghost order: seq<string>)
      requires Valid()
      modifies cache, cache.Repr, (set s | s in distributer.sidecars.Values :: s.receiver)`buffer
      ensures Valid()
      ensures trapped <==> obj.Slice? && RemovesService(old(cache.Contents), obj.slice)
      ensures cache.Contents == if obj.Slice? then Deleted(old(cache.Contents), obj.slice) else old(cache.Contents)
      ensures trapped || !obj.Slice? || obj.slice.service !in old(cache.Contents) ==> told == null && !panicked
      ensures !trapped && obj.Slice? && obj.slice.service in old(cache.Contents) ==>
                var service := obj.slice.service;
                && distributer.Chosen(told, service) && IsOrder(cache.Contents[service], order)
                && var event := Built(MODIFIED, Joined(cache.Contents[service], order));
                && (panicked <==> told != null && event.None?)
                && (told != null ==> told.Box() == Informed(old(told.Box()), event))
      ensures forall s :: s in distributer.sidecars.Values && s != told ==> s.Box() == old(s.Box())
    {
      hide EndpointSliceCache.Valid, GrpcServer.Valid, Sidecar.Box, Informed, Joined, Built, IsOrder, Deleted;
      trapped, panicked, told, order := false, false, null, [];
      if obj.Slice? {
        DeletedKeeps(cache.Contents, obj.slice);
      }
      var result := cache.OnDelete(obj);
      if result.NilDereference? {
        trapped := true;
        return;
      }
      if result.Changed? {
        panicked, told, order := PublishDeletion(result.service, result.deleteAll);
      }
    }
  }
}
