/** internal/ctrl/worker/event.go: events as work-queue keys `<type>/<namespace>/<container>`. */
module EventKeys {

  datatype Event = Event(eventType: string, namespace: string, containerName: string)

  datatype Parsed = Ok(event: Event) | Invalid

  const ADD := "Add"
  const UPDATE := "Update"
  const DELETE := "Delete"

  function Key(e: Event): string {
    e.eventType + "/" + e.namespace + "/" + e.containerName
  }

  /** The position of the first '/', or the length when there is none. */
  function Slash(s: string): (i: nat)
    ensures i <= |s|
    ensures '/' !in s[..i] && (i < |s| ==> s[i] == '/')
  {
    if s == [] || s[0] == '/' then 0
    else
      var i := 1 + Slash(s[1..]);
      assert s[..i] == [s[0]] + s[1..][..i - 1];
      i
  }

  /** strings.SplitN(s, "/", n): at most n parts, the last one unsplit. */
  function SplitN(s: string, n: nat): (parts: seq<string>)
    requires n > 0
    ensures 1 <= |parts| <= n
    decreases n
  {
    var i := Slash(s);
    if n == 1 || i == |s| then [s] else [s[..i]] + SplitN(s[i + 1..], n - 1)
  }

  function ParseEventKey(key: string): Parsed {
    var parts := SplitN(key, 3);
    if |parts| != 3 then Invalid else Ok(Event(parts[0], parts[1], parts[2]))
  }

  lemma {:induction false} SlashOfConcat(a: string, b: string)
    ensures '/' !in a ==> Slash(a + "/" + b) == |a|
    ensures '/' in a ==> Slash(a + "/" + b) < |a|
  {
    if a != [] && a[0] != '/' {
      SlashOfConcat(a[1..], b);
      assert (a + "/" + b)[1..] == a[1..] + "/" + b;
      assert '/' in a <==> '/' in a[1..];
    }
  }

  lemma Joined(a: string, b: string, c: string)
    ensures a + "/" + b + "/" + c == a + "/" + (b + "/" + c)
  {}

  /** Splitting off a first part without '/' gives that part and splits the rest. */
  lemma SplitFirst(a: string, rest: string, n: nat)
    requires n > 1
    ensures '/' !in a ==> SplitN(a + "/" + rest, n) == [a] + SplitN(rest, n - 1)
    ensures '/' in a ==> SplitN(a + "/" + rest, n)[0] != a
  {
    var s := a + "/" + rest;
    SlashOfConcat(a, rest);
    if '/' !in a {
      assert s[..|a|] == a && s[|a| + 1..] == rest;
    }
  }

  /** An event survives the trip through its key exactly when neither its type nor its namespace holds a '/'. */
  lemma KeyRoundTrip(e: Event)
    ensures ParseEventKey(Key(e)) == Ok(e) <==> '/' !in e.eventType && '/' !in e.namespace
  {
    var rest := e.namespace + "/" + e.containerName;
    Joined(e.eventType, e.namespace, e.containerName);
    SplitFirst(e.eventType, rest, 3);
    SplitFirst(e.namespace, e.containerName, 2);
    hide SplitN;
    SingleSplit(e.containerName);
  }

  lemma SingleSplit(s: string)
    ensures SplitN(s, 1) == [s]
  {}

  /** Whatever is accepted is the key of what it parses to. */
  lemma ParseRoundTrip(s: string)
    ensures ParseEventKey(s).Ok? ==> Key(ParseEventKey(s).event) == s
  {}

  function Slashes(s: string): nat {
    if s == [] then 0 else (if s[0] == '/' then 1 else 0) + Slashes(s[1..])
  }

  lemma {:induction false} SlashesAfterFirst(s: string)
    ensures Slashes(s) == if Slash(s) == |s| then 0 else 1 + Slashes(s[Slash(s) + 1..])
  {
    if s != [] && s[0] != '/' {
      SlashesAfterFirst(s[1..]);
      if Slash(s) < |s| {
        assert s[1..][Slash(s[1..]) + 1..] == s[Slash(s) + 1..];
      }
    }
  }

  /** A key is rejected exactly when it has fewer than two slashes. */
  lemma RejectedIffTooFewSlashes(s: string)
    ensures ParseEventKey(s).Invalid? <==> Slashes(s) < 2
  {
    SlashesAfterFirst(s);
    var i := Slash(s);
    if i < |s| {
      var rest := s[i + 1..];
      SlashesAfterFirst(rest);
      assert SplitN(s, 3) == [s[..i]] + SplitN(rest, 2);
    }
  }

  /** The work queue, which merges equal keys, never merges different well-formed events. */
  lemma KeysDistinguishEvents(d: Event, e: Event)
    requires '/' !in d.eventType && '/' !in d.namespace && '/' !in e.eventType && '/' !in e.namespace
    ensures Key(d) == Key(e) ==> d == e
  {
    KeyRoundTrip(d);
    KeyRoundTrip(e);
  }
}
