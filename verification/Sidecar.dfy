/** The router's sidecar, src/bin/pod_sidecar.rs: it keeps a router's live links equal to the URIs in
    its neighbour maps by diffing. */
module Sidecar {
  import opened Wrappers
  import opened MeshTypes

  datatype Command = LinkCreate(uri: Uri) | LinkDestroy(uri: Uri)

  /** `merge_neighbor_uris`. */
  function MergeNeighborUris(inner: map<Name, Uri>, outer: map<Name, Uri>): set<Uri> {
    inner.Values + outer.Values
  }

  /** `diff_uris`: what was added and what was removed. */
  function DiffUris(before: set<Uri>, after: set<Uri>): (set<Uri>, set<Uri>) {
    (after - before, before - after)
  }

  function WantedLinks(status: Option<Status>): set<Uri> {
    match status
    case Some(st) => MergeNeighborUris(st.innerNeighbors, st.outerNeighbors)
    case None => {}
  }

  // ---------------------------------------------------------------------------------------
  // What a log of commands amounts to
  // ---------------------------------------------------------------------------------------

  /** The links that exist after the commands, from none. */
  function Live(log: seq<Command>): set<Uri> {
    if log == [] then {}
    else
      match log[|log| - 1]
      case LinkCreate(u) => Live(log[..|log| - 1]) + {u}
      case LinkDestroy(u) => Live(log[..|log| - 1]) - {u}
  }

  /** The commands about one URI. */
  function About(log: seq<Command>, u: Uri): seq<Command> {
    if log == [] then []
    else
      var front := About(log[..|log| - 1], u);
      if log[|log| - 1].uri == u then front + [log[|log| - 1]] else front
  }

  /** For every URI: create, destroy, create, ... */
  ghost predicate Alternates(log: seq<Command>) {
    forall u, i :: 0 <= i < |About(log, u)| ==> (About(log, u)[i] == if i % 2 == 0 then LinkCreate(u) else LinkDestroy(u))
  }

  /** A command that does something: it creates a link that is not there or destroys one that is. */
  predicate Effective(live: set<Uri>, c: Command) {
    c.LinkCreate? <==> c.uri !in live
  }

  lemma {:induction false} LiveIsOdd(log: seq<Command>, u: Uri)
    requires Alternates(log)
    ensures u in Live(log) <==> |About(log, u)| % 2 == 1
  {
    if log != [] {
      var front := log[..|log| - 1];
      var last := log[|log| - 1];
      AlternatesFront(log);
      LiveIsOdd(front, u);
      if last.uri == u {
        assert About(log, u)[|About(front, u)|] == last;
      }
    }
  }

  lemma AlternatesFront(log: seq<Command>)
    requires log != [] && Alternates(log)
    ensures Alternates(log[..|log| - 1])
  {
    var front := log[..|log| - 1];
    forall u, i | 0 <= i < |About(front, u)|
      ensures About(front, u)[i] == if i % 2 == 0 then LinkCreate(u) else LinkDestroy(u)
    {
      assert About(log, u)[i] == About(front, u)[i];
    }
  }

  /** Strict alternation is the same as every command being effective when it is issued. */
  lemma AlternatesStep(log: seq<Command>, c: Command)
    requires Alternates(log)
    ensures Alternates(log + [c]) <==> Effective(Live(log), c)
    ensures Live(log + [c]) == if c.LinkCreate? then Live(log) + {c.uri} else Live(log) - {c.uri}
  {
    var more := log + [c];
    assert more[..|log|] == log;
    LiveIsOdd(log, c.uri);
    var k := |About(log, c.uri)|;
    assert About(more, c.uri) == About(log, c.uri) + [c];
    assert About(more, c.uri)[k] == c;
    if Effective(Live(log), c) {
      forall u, i | 0 <= i < |About(more, u)|
        ensures About(more, u)[i] == if i % 2 == 0 then LinkCreate(u) else LinkDestroy(u)
      {
        if u != c.uri {
          assert About(more, u) == About(log, u);
        }
      }
    }
  }

  // ---------------------------------------------------------------------------------------
  // The watch loop
  // ---------------------------------------------------------------------------------------

  class Watcher {
    var neighbors: set<Uri>
    var log: seq<Command>

    ghost predicate Valid()
      reads this
    {
      Alternates(log) && Live(log) == neighbors
    }

    constructor ()
      ensures Valid() && neighbors == {} && log == []
    {
      neighbors := {};
      log := [];
    }

    /** One iteration of the loop: the commands issued are exactly one create for each added URI, then
        one destroy for each removed one. */
    method HandleEvent(status: Option<Status>)
      requires Valid()
      modifies this
      ensures Valid() && neighbors == WantedLinks(status)
      ensures old(log) <= log
      ensures Responds(old(neighbors), WantedLinks(status), log[|old(log)|..])
    {
      hide Live, About;
      var newNeighbors := WantedLinks(status);
      var (added, removed) := DiffUris(neighbors, newNeighbors);
      ghost var before, start := neighbors, |log|;
      while added != {}
        invariant added <= newNeighbors - before && neighbors == before
        invariant old(log) <= log && Alternates(log)
        invariant Live(log) == before + (newNeighbors - before - added)
        invariant forall u :: LinkCreate(u) in log[start..] <==> u in newNeighbors - before - added
        invariant forall i :: start <= i < |log| ==> log[i].LinkCreate?
        invariant NoRepeats(log[start..])
      {
        var uri :| uri in added;
        AlternatesStep(log, LinkCreate(uri));
        assert (log + [LinkCreate(uri)])[start..] == log[start..] + [LinkCreate(uri)];
        log := log + [LinkCreate(uri)];
        added := added - {uri};
      }
      while removed != {}
        invariant removed <= before - newNeighbors && neighbors == before
        invariant old(log) <= log && Alternates(log)
        invariant Live(log) == newNeighbors + removed
        invariant forall u :: LinkCreate(u) in log[start..] <==> u in newNeighbors - before
        invariant forall u :: LinkDestroy(u) in log[start..] <==> u in before - newNeighbors - removed
        invariant NoRepeats(log[start..]) && CreatesFirst(log[start..])
      {
        var uri :| uri in removed;
        AlternatesStep(log, LinkDestroy(uri));
        assert (log + [LinkDestroy(uri)])[start..] == log[start..] + [LinkDestroy(uri)];
        log := log + [LinkDestroy(uri)];
        removed := removed - {uri};
      }
      neighbors := newNeighbors;
    }

    /** The whole watch: after every event the live links are what the status asks for, and over the
        whole run the commands for each URI alternate. */
    method Watch(events: seq<Option<Status>>)
      requires Valid() && neighbors == {} && log == []
      modifies this
      ensures Alternates(log)
      ensures Live(log) == if events == [] then {} else WantedLinks(events[|events| - 1])
      ensures Session(events, log)
    {
      var i := 0;
      while i < |events|
        invariant i <= |events| && Valid()
        invariant neighbors == Last(events[..i])
        invariant Session(events[..i], log)
      {
        ghost var done := log;
        HandleEvent(events[i]);
        assert events[..i + 1][..i] == events[..i];
        assert log[..|done|] == done;
        i := i + 1;
      }
      assert events[..i] == events;
    }
  }

  predicate NoRepeats(cmds: seq<Command>) {
    forall i, j :: 0 <= i < j < |cmds| ==> cmds[i] != cmds[j]
  }

  predicate CreatesFirst(cmds: seq<Command>) {
    forall i, j :: 0 <= i < j < |cmds| && cmds[j].LinkCreate? ==> cmds[i].LinkCreate?
  }

  /** The commands one event gives rise to. */
  ghost predicate Responds(before: set<Uri>, after: set<Uri>, cmds: seq<Command>) {
    && NoRepeats(cmds) && CreatesFirst(cmds)
    && (forall u :: LinkCreate(u) in cmds <==> u in after - before)
    && (forall u :: LinkDestroy(u) in cmds <==> u in before - after)
  }

  function Last(events: seq<Option<Status>>): set<Uri> {
    if events == [] then {} else WantedLinks(events[|events| - 1])
  }

  /** The log a watch over the events can leave, from no links. */
  ghost predicate Session(events: seq<Option<Status>>, log: seq<Command>)
    decreases |events|
  {
    if events == [] then log == []
    else
      exists k :: 0 <= k <= |log| && Session(events[..|events| - 1], log[..k])
                  && Responds(Last(events[..|events| - 1]), Last(events), log[k..])
  }

  /** Some neighbour in the status holds the URI. */
  ghost predicate Held(status: Option<Status>, u: Uri) {
    status.Some? && ((exists n :: n in status.value.innerNeighbors && status.value.innerNeighbors[n] == u)
                     || (exists n :: n in status.value.outerNeighbors && status.value.outerNeighbors[n] == u))
  }

  lemma HeldIsWanted(status: Option<Status>, u: Uri)
    ensures Held(status, u) <==> u in WantedLinks(status)
  {
  }

  /** A link is destroyed only when its last holder goes, however many neighbours shared it. */
  lemma DestroyedWithLastHolder(before: Option<Status>, after: Option<Status>, cmds: seq<Command>, u: Uri)
    requires Responds(WantedLinks(before), WantedLinks(after), cmds)
    ensures LinkDestroy(u) in cmds <==> Held(before, u) && !Held(after, u)
    ensures LinkCreate(u) in cmds <==> !Held(before, u) && Held(after, u)
  {
    HeldIsWanted(before, u);
    HeldIsWanted(after, u);
  }

  lemma {:induction false} AlternatesBatch(log: seq<Command>, before: set<Uri>, after: set<Uri>, cmds: seq<Command>, k: nat)
    requires Alternates(log) && Live(log) == before && Responds(before, after, cmds) && k <= |cmds|
    ensures Alternates(log + cmds[..k])
    ensures forall u :: u in Live(log + cmds[..k]) <==>
              (u in before && LinkDestroy(u) !in cmds[..k]) || LinkCreate(u) in cmds[..k]
  {
    hide Live, Alternates;
    if k == 0 {
      assert log + cmds[..0] == log;
    } else {
      AlternatesBatch(log, before, after, cmds, k - 1);
      var c := cmds[k - 1];
      assert log + cmds[..k] == (log + cmds[..k - 1]) + [c];
      assert c in cmds;
      assert c !in cmds[..k - 1];
      AlternatesStep(log + cmds[..k - 1], c);
    }
  }

  /** Every log a watch can leave alternates, and its links are what the last event asked for. */
  lemma {:induction false} SessionAlternates(events: seq<Option<Status>>, log: seq<Command>)
    requires Session(events, log)
    ensures Alternates(log) && Live(log) == Last(events)
    decreases |events|
  {
    if events != [] {
      var front := events[..|events| - 1];
      var k :| 0 <= k <= |log| && Session(front, log[..k]) && Responds(Last(front), Last(events), log[k..]);
      SessionAlternates(front, log[..k]);
      var cmds := log[k..];
      AlternatesBatch(log[..k], Last(front), Last(events), cmds, |cmds|);
      assert cmds[..|cmds|] == cmds && log[..k] + cmds == log;
    }
  }
}
