/** Views of a trace used to state what a run does: the events of one kind,
    the trace with cache-purge results forgotten, and the reference
    description of which projects a run migrates. */
module Observation {
  import opened MigrationModel

  datatype Kind =
    | AuthKind | VersionKind | StartKind | CountKind | NamespaceKind
    | ProjectKind | FetchKind | ProgressKind | CompletionKind

  function KindOf(e: Event): Kind {
    match e
    case AuthDisabled => AuthKind
    case VersionNotFound(_) => VersionKind
    case Started(_) => StartKind
    case Counted(_, _) => CountKind
    case NamespaceSet(_) => NamespaceKind
    case Purged(_, _) => ProjectKind
    case Migrated(_, _) => ProjectKind
    case Fetched(_, _, _) => FetchKind
    case Progress(_, _) => ProgressKind
    case Completed => CompletionKind
  }

  /** The events of kind `k`, in trace order. */
  function Select(s: seq<Event>, k: Kind): (r: seq<Event>)
    ensures |r| <= |s|
  {
    if s == [] then [] else (if KindOf(s[0]) == k then [s[0]] else []) + Select(s[1..], k)
  }

  /** `Select` keeps exactly the events of kind `k`. */
  lemma {:induction false} SelectMembers(s: seq<Event>, k: Kind)
    ensures forall e :: e in Select(s, k) <==> e in s && KindOf(e) == k
  {
    if s != [] {
      SelectMembers(s[1..], k);
      assert s == [s[0]] + s[1..];
    }
  }

  /** `Select` keeps every occurrence of an event of kind `k`. */
  lemma {:induction false} SelectCount(s: seq<Event>, k: Kind, e: Event)
    requires KindOf(e) == k
    ensures multiset(Select(s, k))[e] == multiset(s)[e]
  {
    if s != [] {
      SelectCount(s[1..], k, e);
      assert s == [s[0]] + s[1..];
    }
  }

  lemma {:induction false} SelectConcat(a: seq<Event>, b: seq<Event>, k: Kind)
    ensures Select(a + b, k) == Select(a, k) + Select(b, k)
  {
    if a == [] {
      assert a + b == b;
    } else {
      var head := if KindOf(a[0]) == k then [a[0]] else [];
      assert (a + b)[0] == a[0];
      assert (a + b)[1..] == a[1..] + b;
      assert Select(a + b, k) == head + Select(a[1..] + b, k);
      SelectConcat(a[1..], b, k);
      assert head + (Select(a[1..], k) + Select(b, k)) == (head + Select(a[1..], k)) + Select(b, k);
    }
  }

  /** An event with the outcome of a cache purge forgotten. */
  function Forget(e: Event): Event {
    if e.Purged? then Purged(e.project, true) else e
  }

  function Erase(s: seq<Event>): (r: seq<Event>)
    ensures |r| == |s|
    ensures forall i :: 0 <= i < |s| ==> r[i] == Forget(s[i])
  {
    seq(|s|, i requires 0 <= i < |s| => Forget(s[i]))
  }

  lemma EraseConcat(a: seq<Event>, b: seq<Event>)
    ensures Erase(a + b) == Erase(a) + Erase(b)
  {
    assert |Erase(a + b)| == |Erase(a) + Erase(b)|;
    forall i | 0 <= i < |a + b| ensures Erase(a + b)[i] == (Erase(a) + Erase(b))[i] {
      if i < |a| {
        assert (a + b)[i] == a[i];
      } else {
        assert (a + b)[i] == b[i - |a|];
      }
    }
  }

  /** The projects that the skip rule lets through, in order. */
  function Kept(ps: seq<Project>): (qs: seq<Project>)
    ensures |qs| <= |ps|
    ensures forall p :: p in qs <==> p in ps && !Skipped(p)
  {
    if ps == [] then []
    else
      assert ps == [ps[0]] + ps[1..];
      (if Skipped(ps[0]) then [] else [ps[0]]) + Kept(ps[1..])
  }

  /** Whether the database lookup or the migration of `p` throws. */
  predicate Fails(w: World, p: Project) {
    p in w.lookupFails || p in w.executeFails
  }

  /** The position of the first project of `qs` whose migration throws, or `|qs|`. */
  function FailIndex(w: World, qs: seq<Project>): (k: nat)
    ensures k <= |qs|
    ensures forall i :: 0 <= i < k ==> !Fails(w, qs[i])
    ensures k < |qs| ==> Fails(w, qs[k])
  {
    if qs == [] then 0
    else if Fails(w, qs[0]) then 0
    else 1 + FailIndex(w, qs[1..])
  }

  /** The events of a project that is migrated successfully. */
  function Triple(w: World, p: Project): seq<Event> {
    [PurgeEvent(w, p), Migrated(p, Executed), PurgeEvent(w, p)]
  }

  /** The events of successfully migrating every project of `qs`, one after the other. */
  function Triples(w: World, qs: seq<Project>): seq<Event>
    decreases |qs|
  {
    if qs == [] then [] else Triple(w, qs[0]) + Triples(w, qs[1..])
  }

  /** Where each project's three events sit in `Triples`. */
  lemma {:induction false} TriplesAt(w: World, qs: seq<Project>, i: nat)
    requires i < |qs|
    ensures |Triples(w, qs)| == 3 * |qs|
    ensures Triples(w, qs)[3 * i] == Purged(qs[i], PurgeSucceeds(w, qs[i]))
    ensures Triples(w, qs)[3 * i + 1] == Migrated(qs[i], Executed)
    ensures Triples(w, qs)[3 * i + 2] == Purged(qs[i], PurgeSucceeds(w, qs[i]))
  {
    if i == 0 {
      TriplesLength(w, qs);
    } else {
      TriplesAt(w, qs[1..], i - 1);
      TriplesLength(w, qs);
    }
  }

  lemma {:induction false} TriplesLength(w: World, qs: seq<Project>)
    ensures |Triples(w, qs)| == 3 * |qs|
  {
    if qs != [] {
      TriplesLength(w, qs[1..]);
    }
  }

  /** `Triples` migrates each project once for every time it occurs. */
  lemma {:induction false} TriplesCount(w: World, qs: seq<Project>, p: Project)
    ensures multiset(Triples(w, qs))[Migrated(p, Executed)] == multiset(qs)[p]
  {
    if qs != [] {
      var e, head, rest := Migrated(p, Executed), Triple(w, qs[0]), Triples(w, qs[1..]);
      TriplesCount(w, qs[1..], p);
      assert Triples(w, qs) == head + rest;
      assert multiset(head + rest) == multiset(head) + multiset(rest);
      assert multiset(head)[e] == if qs[0] == p then 1 else 0;
      assert qs == [qs[0]] + qs[1..];
      assert multiset(qs) == multiset([qs[0]]) + multiset(qs[1..]);
    }
  }

  /** The status with which the migration of a failing project ends. */
  function FailStatus(w: World, p: Project): Status {
    if p in w.lookupFails then LookupFailed else ExecuteFailed
  }

  function FailureOf(w: World, p: Project): Failure {
    if p in w.lookupFails then LookupFailure(p) else ExecuteFailure(p)
  }

  /** The events of a project whose migration throws. */
  function Attempt(w: World, p: Project): seq<Event> {
    [PurgeEvent(w, p), Migrated(p, FailStatus(w, p))]
  }
}
