/** The container rewriting helpers at the end of internal/ctrl/worker/crd_worker.go. */
module Containers {

  datatype Container = Container(name: string, image: string, command: seq<string>, resources: string)

  /** A Deployment or StatefulSet: its labels, its two container lists, and all the rest of it. */
  datatype Workload = Workload(
    labels: map<string, string>,
    initContainers: seq<Container>,
    containers: seq<Container>,
    other: string)

  /** What an event asks to be done to a workload: replace the container of that name, or remove it. */
  datatype Rewrite = Put(container: Container) | Drop(name: string) {
    function Target(): string {
      if Put? then container.name else name
    }
  }

  /** The first container of the new one's name is replaced; later ones are left as they are. */
  function Replaced(cs: seq<Container>, c: Container): seq<Container> {
    if cs == [] then []
    else if cs[0].name == c.name then [c] + cs[1..]
    else [cs[0]] + Replaced(cs[1..], c)
  }

  function Without(cs: seq<Container>, name: string): seq<Container> {
    if cs == [] then []
    else Without(cs[..|cs| - 1], name) + if cs[|cs| - 1].name != name then [cs[|cs| - 1]] else []
  }

  function RewriteList(r: Rewrite, cs: seq<Container>): seq<Container> {
    match r
    case Put(c) => Replaced(cs, c)
    case Drop(name) => Without(cs, name)
  }

  function RewriteWorkload(r: Rewrite, w: Workload): Workload {
    w.(initContainers := RewriteList(r, w.initContainers), containers := RewriteList(r, w.containers))
  }

  lemma {:induction false} ReplacedAt(cs: seq<Container>, c: Container, i: nat)
    requires i <= |cs| && (forall j :: 0 <= j < i ==> cs[j].name != c.name)
    requires i < |cs| ==> cs[i].name == c.name
    ensures Replaced(cs, c) == if i < |cs| then cs[i := c] else cs
  {
    if i > 0 {
      ReplacedAt(cs[1..], c, i - 1);
    }
  }

  /** The loop of the source: it stops at the first match and changes the slice in place. */
  method ContainersWithOneUpdated(containers: array<Container>, newContainer: Container)
    modifies containers
    ensures containers[..] == Replaced(old(containers[..]), newContainer)
  {
    var i := 0;
    while i < containers.Length
      invariant 0 <= i <= containers.Length
      invariant containers[..] == old(containers[..])
      invariant forall j :: 0 <= j < i ==> containers[j].name != newContainer.name
    {
      if containers[i].name == newContainer.name {
        ReplacedAt(containers[..], newContainer, i);
        containers[i] := newContainer;
        return;
      }
      i := i + 1;
    }
    ReplacedAt(containers[..], newContainer, i);
  }

  method ContainersWithOneRemoved(containers: seq<Container>, containerName: string)
    returns (result: seq<Container>)
    ensures result == Without(containers, containerName)
  {
    result := [];
    var i := 0;
    assert containers[..0] == [];
    while i < |containers|
      invariant 0 <= i <= |containers|
      invariant result == Without(containers[..i], containerName)
    {
      assert containers[..i + 1][..i] == containers[..i];
      if containers[i].name != containerName {
        result := result + [containers[i]];
      }
      i := i + 1;
    }
    assert containers[..i] == containers;
  }

  method WithContainerUpdated(w: Workload, newContainer: Container) returns (updated: Workload)
    ensures updated == RewriteWorkload(Put(newContainer), w)
  {
    var initContainers := new Container[|w.initContainers|](
      i requires 0 <= i < |w.initContainers| => w.initContainers[i]);
    var containers := new Container[|w.containers|](
      i requires 0 <= i < |w.containers| => w.containers[i]);
    assert initContainers[..] == w.initContainers && containers[..] == w.containers;
    ContainersWithOneUpdated(initContainers, newContainer);
    ContainersWithOneUpdated(containers, newContainer);
    updated := w.(initContainers := initContainers[..], containers := containers[..]);
  }

  method WithContainerRemoved(w: Workload, containerName: string) returns (updated: Workload)
    ensures updated == RewriteWorkload(Drop(containerName), w)
  {
    var initContainers := ContainersWithOneRemoved(w.initContainers, containerName);
    var containers := ContainersWithOneRemoved(w.containers, containerName);
    updated := w.(initContainers := initContainers, containers := containers);
  }

  // --- What the rewriting means ---

  ghost predicate UniqueNames(cs: seq<Container>) {
    forall i, j :: 0 <= i < j < |cs| ==> cs[i].name != cs[j].name
  }

  ghost predicate UniqueInWorkload(w: Workload) {
    UniqueNames(w.initContainers) && UniqueNames(w.containers)
  }

  ghost predicate Holds(w: Workload, c: Container) {
    c in w.initContainers || c in w.containers
  }

  lemma {:induction false} ReplacedFirst(cs: seq<Container>, c: Container)
    ensures |Replaced(cs, c)| == |cs|
    ensures forall i :: 0 <= i < |cs| ==>
              Replaced(cs, c)[i] == if cs[i].name == c.name && (forall j :: 0 <= j < i ==> cs[j].name != c.name)
                                    then c else cs[i]
  {
    if i: nat :| i < |cs| && cs[i].name == c.name {
      FirstMatch(cs, c.name, i);
      var k :| 0 <= k < |cs| && cs[k].name == c.name && (forall j :: 0 <= j < k ==> cs[j].name != c.name);
      ReplacedAt(cs, c, k);
    } else {
      ReplacedAt(cs, c, |cs|);
    }
  }

  lemma {:induction false} FirstMatch(cs: seq<Container>, name: string, i: nat)
    requires i < |cs| && cs[i].name == name
    ensures exists k :: 0 <= k < |cs| && cs[k].name == name && (forall j :: 0 <= j < k ==> cs[j].name != name)
    decreases i
  {
    if j: nat :| j < i && cs[j].name == name {
      FirstMatch(cs, name, j);
    }
  }

  /** Removing keeps exactly the containers of other names. */
  lemma {:induction false} WithoutMembers(cs: seq<Container>, name: string, c: Container)
    ensures c in Without(cs, name) <==> c in cs && c.name != name
  {
    if cs != [] {
      WithoutMembers(cs[..|cs| - 1], name, c);
      assert cs == cs[..|cs| - 1] + [cs[|cs| - 1]];
    }
  }

  /** With unique names, replacing makes the container of that name the new one and keeps the others. */
  lemma ReplacedMembers(cs: seq<Container>, c: Container, d: Container)
    requires UniqueNames(cs)
    ensures d in Replaced(cs, c) ==> if d.name == c.name then d == c else d in cs
    ensures d in cs && d.name != c.name ==> d in Replaced(cs, c)
  {
    ReplacedFirst(cs, c);
    var r := Replaced(cs, c);
    forall i | 0 <= i < |cs| && r[i] == d ensures if d.name == c.name then d == c else d in cs {
      assert cs[i].name == r[i].name;
    }
    if d in cs && d.name != c.name {
      var i :| 0 <= i < |cs| && cs[i] == d;
      assert r[i] == d;
    }
  }

  lemma ReplacedKeepsNames(cs: seq<Container>, c: Container)
    requires UniqueNames(cs)
    ensures UniqueNames(Replaced(cs, c))
  {
    ReplacedFirst(cs, c);
    forall i | 0 <= i < |cs| ensures Replaced(cs, c)[i].name == cs[i].name {}
  }

  lemma {:induction false} WithoutKeepsNames(cs: seq<Container>, name: string)
    requires UniqueNames(cs)
    ensures UniqueNames(Without(cs, name))
  {
    if cs != [] {
      var before, last := cs[..|cs| - 1], cs[|cs| - 1];
      WithoutKeepsNames(before, name);
      forall i | 0 <= i < |Without(before, name)| ensures Without(before, name)[i].name != last.name {
        WithoutMembers(before, name, Without(before, name)[i]);
      }
    }
  }

  // --- A later rewrite of the same kind for the same name makes an earlier one irrelevant ---

  lemma {:induction false} ReplacedOverwrites(cs: seq<Container>, c: Container, d: Container)
    requires c.name == d.name
    ensures Replaced(Replaced(cs, c), d) == Replaced(cs, d)
  {
    if cs != [] && cs[0].name != c.name {
      ReplacedOverwrites(cs[1..], c, d);
      assert Replaced(cs, c)[1..] == Replaced(cs[1..], c);
    } else if cs != [] {
      assert Replaced(cs, c)[1..] == cs[1..];
    }
  }

  lemma {:induction false} WithoutIsIdempotent(cs: seq<Container>, name: string)
    ensures Without(Without(cs, name), name) == Without(cs, name)
  {
    if cs != [] {
      WithoutIsIdempotent(cs[..|cs| - 1], name);
      var kept := Without(cs[..|cs| - 1], name);
      if cs[|cs| - 1].name != name {
        assert (kept + [cs[|cs| - 1]])[..|kept|] == kept;
      } else {
        assert Without(cs, name) == kept;
      }
    }
  }

  /** Two rewrites an event key can ask for: both put a container of the key's name, or both drop it. */
  predicate SameKey(a: Rewrite, b: Rewrite) {
    a.Target() == b.Target() && (a.Put? <==> b.Put?)
  }

  lemma RewriteOverwrites(a: Rewrite, b: Rewrite, w: Workload)
    requires SameKey(a, b)
    ensures RewriteWorkload(b, RewriteWorkload(a, w)) == RewriteWorkload(b, w)
  {
    match b {
      case Put(d) =>
        ReplacedOverwrites(w.initContainers, a.container, d);
        ReplacedOverwrites(w.containers, a.container, d);
      case Drop(name) =>
        WithoutIsIdempotent(w.initContainers, name);
        WithoutIsIdempotent(w.containers, name);
    }
  }
}
