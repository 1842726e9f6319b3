/** The offline mark and sweep of packages/attachments/src/lifecycle.ts over a file system of
    reference directories and hard-linked objects. The checks of one reference's metadata and
    names are one flag; a path's device and inode are one inode number. */
module AttachmentGc {
  import opened Sequences
  import opened AttachmentMark

  type Path = string
  type Inode = nat

  datatype Times = Times(mtime: int, ctime: int)

  datatype Stat = Stat(times: Times, size: nat, links: nat)

  /** A reference directory: its metadata, its original file and where its object should be. */
  datatype Ref = Ref(id: string, bytes: nat, original: Inode, objectPath: Path,
                     node: Inode, directory: Times, metadata: Times, valid: bool)

  datatype Store = Store(refs: map<Path, Ref>, objects: map<Path, Inode>, inodes: map<Inode, Stat>)

  /** One attachment root, as its directories list it. */
  datatype Root = Root(refs: seq<Path>, objects: seq<Path>)

  datatype Candidate = Candidate(path: Path, bytes: nat, node: Inode, times: Times)

  predicate Expired(t: Times, cutoff: int) {
    t.mtime <= cutoff && t.ctime <= cutoff
  }

  // ---------- hard links ----------

  function RefLinks(refs: map<Path, Ref>, paths: set<Path>, node: Inode): set<Path> {
    set p | p in paths && p in refs && refs[p].original == node
  }

  function ObjectLinks(objects: map<Path, Inode>, node: Inode): set<Path> {
    set p | p in objects && objects[p] == node
  }

  /** Every original and object exists, and an inode has at least the links the store shows. */
  ghost predicate WellLinked(s: Store) {
    && (forall p | p in s.refs :: s.refs[p].original in s.inodes)
    && (forall p | p in s.objects :: s.objects[p] in s.inodes)
    && forall node | node in s.inodes ::
         |RefLinks(s.refs, s.refs.Keys, node)| + |ObjectLinks(s.objects, node)| <= s.inodes[node].links
  }

  lemma RefLinksAdd(refs: map<Path, Ref>, paths: set<Path>, p: Path)
    requires p !in paths && p in refs
    ensures forall node :: |RefLinks(refs, paths + {p}, node)|
                           == |RefLinks(refs, paths, node)| + if refs[p].original == node then 1 else 0
  {
    forall node
      ensures |RefLinks(refs, paths + {p}, node)|
              == |RefLinks(refs, paths, node)| + if refs[p].original == node then 1 else 0
    {
      var before, after := RefLinks(refs, paths, node), RefLinks(refs, paths + {p}, node);
      if refs[p].original == node {
        assert after == before + {p};
      } else {
        assert after == before;
      }
    }
  }

  lemma SubsetCount<T>(a: set<T>, b: set<T>)
    requires a <= b
    ensures |a| <= |b|
  {
    assert b == a + (b - a);
  }

  // ---------- what may be removed ----------

  function RefsOf(roots: seq<Root>): seq<Path> {
    if roots == [] then [] else RefsOf(roots[..|roots| - 1]) + roots[|roots| - 1].refs
  }

  function ObjectsOf(roots: seq<Root>): seq<Path> {
    if roots == [] then [] else ObjectsOf(roots[..|roots| - 1]) + roots[|roots| - 1].objects
  }

  /** The listings name existing entries, each once. */
  ghost predicate Listed(s: Store, roots: seq<Root>) {
    && Distinct(RefsOf(roots)) && Distinct(ObjectsOf(roots))
    && (forall p | p in RefsOf(roots) :: p in s.refs)
    && forall p | p in ObjectsOf(roots) :: p in s.objects
  }

  /** A reference agrees with its original and is hard-linked to its object. */
  ghost predicate Intact(s: Store, p: Path)
    requires p in s.refs && s.refs[p].original in s.inodes
  {
    var r := s.refs[p];
    r.valid && s.inodes[r.original].size == r.bytes && r.objectPath in s.objects && s.objects[r.objectPath] == r.original
  }

  /** Unmarked and past the grace period. */
  predicate Removable(r: Ref, marked: set<string>, cutoff: int) {
    r.id !in marked && Expired(r.directory, cutoff) && Expired(r.metadata, cutoff)
  }

  function RemovableRefs(s: Store, paths: seq<Path>, marked: set<string>, cutoff: int): set<Path> {
    set p | p in paths && p in s.refs && Removable(s.refs[p], marked, cutoff)
  }

  /** An expired object whose only link besides the removable references seen so far is itself. */
  ghost predicate DeadObject(s: Store, removable: set<Path>, p: Path, cutoff: int) {
    && p in s.objects && s.objects[p] in s.inodes
    && Expired(s.inodes[s.objects[p]].times, cutoff)
    && s.inodes[s.objects[p]].links - |RefLinks(s.refs, removable, s.objects[p])| == 1
  }

  /** The objects the scan selects, root by root. */
  ghost function DeadObjects(s: Store, roots: seq<Root>, marked: set<string>, cutoff: int): set<Path> {
    if roots == [] then {}
    else
      var removable := RemovableRefs(s, RefsOf(roots), marked, cutoff);
      DeadObjects(s, roots[..|roots| - 1], marked, cutoff)
      + set p | p in roots[|roots| - 1].objects && DeadObject(s, removable, p, cutoff)
  }

  function Paths(cs: seq<Candidate>): set<Path> {
    set c | c in cs :: c.path
  }

  ghost predicate DistinctPaths(cs: seq<Candidate>) {
    forall i, j | 0 <= i < j < |cs| :: cs[i].path != cs[j].path
  }

  ghost predicate RefUnchanged(s: Store, c: Candidate) {
    c.path in s.refs && s.refs[c.path].node == c.node && s.refs[c.path].directory == c.times
  }

  ghost predicate ObjectUnchanged(s: Store, c: Candidate) {
    c.path in s.objects && s.objects[c.path] == c.node && c.node in s.inodes && s.inodes[c.node].times == c.times
  }

  function TotalBytes(cs: seq<Candidate>): nat {
    if cs == [] then 0 else TotalBytes(cs[..|cs| - 1]) + cs[|cs| - 1].bytes
  }

  // ---------- safety and predictability of the selection ----------

  lemma {:induction false} DeadObjectFound(s: Store, roots: seq<Root>, marked: set<string>, cutoff: int, p: Path)
    returns (removable: set<Path>)
    requires p in DeadObjects(s, roots, marked, cutoff)
    ensures removable <= RemovableRefs(s, RefsOf(roots), marked, cutoff)
    ensures DeadObject(s, removable, p, cutoff) && p in ObjectsOf(roots)
  {
    var front := roots[..|roots| - 1];
    if p in DeadObjects(s, front, marked, cutoff) {
      removable := DeadObjectFound(s, front, marked, cutoff, p);
    } else {
      removable := RemovableRefs(s, RefsOf(roots), marked, cutoff);
    }
  }

  /** Whatever the order of the roots, a selected object has no link but itself and references
      that are removed too: after the sweep of the references its link count is exactly 1. */
  lemma DeadObjectsLastLink(s: Store, roots: seq<Root>, marked: set<string>, cutoff: int, p: Path)
    requires WellLinked(s) && p in DeadObjects(s, roots, marked, cutoff)
    ensures p in s.objects
    ensures var node, all := s.objects[p], RemovableRefs(s, RefsOf(roots), marked, cutoff);
            && s.inodes[node].links - |RefLinks(s.refs, all, node)| == 1
            && ObjectLinks(s.objects, node) == {p}
            && RefLinks(s.refs, s.refs.Keys, node) == RefLinks(s.refs, all, node)
  {
    hide RemovableRefs, DeadObjects, RefsOf, ObjectsOf;
    var part := DeadObjectFound(s, roots, marked, cutoff, p);
    var node, all := s.objects[p], RemovableRefs(s, RefsOf(roots), marked, cutoff);
    LastLink(RefLinks(s.refs, part, node), RefLinks(s.refs, all, node), RefLinks(s.refs, s.refs.Keys, node),
             ObjectLinks(s.objects, node), p, s.inodes[node].links);
  }

  /** One link is left besides some references, and the object itself is one. */
  lemma LastLink(some: set<Path>, most: set<Path>, every: set<Path>, own: set<Path>, p: Path, links: int)
    requires some <= most <= every && p in own && links >= |every| + |own| && links - |some| == 1
    ensures links - |most| == 1 && own == {p} && every == most
  {
    assert own == {p} + (own - {p});
    SubsetCount(some, most);
    SubsetCount(most, every);
    assert every == most + (every - most);
  }

  /** An object linked by a reference that stays is never selected. */
  lemma KeptRefsKeepObjects(s: Store, roots: seq<Root>, marked: set<string>, cutoff: int, r: Path)
    requires WellLinked(s) && r in s.refs && Intact(s, r)
    requires r !in RemovableRefs(s, RefsOf(roots), marked, cutoff)
    ensures s.refs[r].objectPath !in DeadObjects(s, roots, marked, cutoff)
  {
    var p, node := s.refs[r].objectPath, s.refs[r].original;
    assert r in RefLinks(s.refs, s.refs.Keys, node);
    if p in DeadObjects(s, roots, marked, cutoff) {
      DeadObjectsLastLink(s, roots, marked, cutoff, p);
    }
  }

  // ---------- scan and sweep ----------

  datatype Error = NotOffline | InvalidTime | NoRoots | NoSources | Corrupted | ChangedDuringGc

  datatype Report = Report(candidateReferences: nat, candidateObjects: nat, reclaimableBytes: nat,
                           removedReferences: nat, removedObjects: nat, dryRun: bool)

  datatype Result = Failed(error: Error) | Done(report: Report)

  datatype Plan = Corrupt | Plan(refs: seq<Candidate>, objects: seq<Candidate>)

  function RecordReferences(sources: seq<seq<Json>>): set<string> {
    if sources == [] then {}
    else RecordReferences(sources[..|sources| - 1]) + ItemReferences(sources[|sources| - 1])
  }

  method MarkAll(sources: seq<seq<Json>>) returns (marked: set<string>)
    ensures marked == RecordReferences(sources)
  {
    marked := {};
    for index := 0 to |sources|
      invariant marked == RecordReferences(sources[..index])
    {
      assert sources[..index + 1][..index] == sources[..index];
      var records := sources[index];
      ghost var before := marked;
      for record := 0 to |records|
        invariant marked == before + ItemReferences(records[..record])
      {
        assert records[..record + 1] == records[..record] + [records[record]];
        ItemsConcat(records[..record], [records[record]]);
        assert [records[record]][1..] == [];
        marked := Mark(records[record], marked);
      }
      assert records[..|records|] == records;
    }
    assert sources[..|sources|] == sources;
  }

  /** The planned candidates are what the store holds, and nothing else. */
  ghost predicate PlanFor(s: Store, roots: seq<Root>, marked: set<string>, cutoff: int, plan: Plan) {
    && plan.Plan?
    && DistinctPaths(plan.refs) && DistinctPaths(plan.objects)
    && Paths(plan.refs) == RemovableRefs(s, RefsOf(roots), marked, cutoff)
    && Paths(plan.objects) == DeadObjects(s, roots, marked, cutoff)
    && (forall c | c in plan.refs :: RefUnchanged(s, c) && c.bytes == s.refs[c.path].bytes)
    && forall c | c in plan.objects :: ObjectUnchanged(s, c) && c.bytes == s.inodes[c.node].size
  }

  lemma RemovableStep(s: Store, paths: seq<Path>, p: Path, marked: set<string>, cutoff: int)
    requires p in s.refs
    ensures RemovableRefs(s, paths + [p], marked, cutoff)
         == RemovableRefs(s, paths, marked, cutoff) + if Removable(s.refs[p], marked, cutoff) then {p} else {}
  {
  }

  lemma DistinctPrefix<T>(a: seq<T>, b: seq<T>)
    requires Distinct(a + b)
    ensures Distinct(a) && Distinct(b) && forall x | x in a :: x !in b
  {
    assert forall i | 0 <= i < |a| :: (a + b)[i] == a[i];
    assert forall i | 0 <= i < |b| :: (a + b)[|a| + i] == b[i];
  }

  /** What scanning the listed references has collected. */
  ghost predicate RefsScanned(s: Store, seen: seq<Path>, marked: set<string>, cutoff: int,
                              candidates: seq<Candidate>, removals: map<Inode, nat>) {
    && DistinctPaths(candidates)
    && Paths(candidates) == RemovableRefs(s, seen, marked, cutoff)
    && (forall c | c in candidates :: RefUnchanged(s, c) && c.bytes == s.refs[c.path].bytes)
    && Counts(s.refs, Paths(candidates), removals)
  }

  ghost predicate Counts(refs: map<Path, Ref>, removable: set<Path>, removals: map<Inode, nat>) {
    forall n :: Removals(removals, n) == |RefLinks(refs, removable, n)|
  }

  function Removals(removals: map<Inode, nat>, node: Inode): nat {
    if node in removals then removals[node] else 0
  }

  lemma RefScanned(s: Store, seen: seq<Path>, p: Path, marked: set<string>, cutoff: int,
                   candidates: seq<Candidate>, removals: map<Inode, nat>)
    requires RefsScanned(s, seen, marked, cutoff, candidates, removals) && p in s.refs && p !in seen
    ensures var r := s.refs[p];
            if Removable(r, marked, cutoff) then
              RefsScanned(s, seen + [p], marked, cutoff, candidates + [Candidate(p, r.bytes, r.node, r.directory)],
                          removals[r.original := Removals(removals, r.original) + 1])
            else RefsScanned(s, seen + [p], marked, cutoff, candidates, removals)
  {
    hide Removable, RefLinks;
    var r := s.refs[p];
    RemovableStep(s, seen, p, marked, cutoff);
    if Removable(r, marked, cutoff) {
      var candidate := Candidate(p, r.bytes, r.node, r.directory);
      assert p !in Paths(candidates);
      assert Paths(candidates + [candidate]) == Paths(candidates) + {p};
      RefLinksAdd(s.refs, Paths(candidates), p);
    }
  }

  lemma NotSeen<T>(a: seq<T>, b: seq<T>, i: nat)
    requires Distinct(a + b) && i < |b|
    ensures b[i] !in a + b[..i]
    ensures a + b[..i + 1] == (a + b[..i]) + [b[i]]
  {
    assert a + b == (a + b[..i]) + b[i..];
    DistinctPrefix(a + b[..i], b[i..]);
    assert b[i] == b[i..][0];
  }

  /** Removing a link lowers the count and touches the change time. */
  function Unlinked(inodes: map<Inode, Stat>, node: Inode, now: int): map<Inode, Stat>
    requires node in inodes && inodes[node].links > 0
  {
    inodes[node := Stat(Times(inodes[node].times.mtime, now), inodes[node].size, inodes[node].links - 1)]
  }

  class Disk {
    var refs: map<Path, Ref>
    var objects: map<Path, Inode>
    var inodes: map<Inode, Stat>

    function State(): Store
      reads this
    {
      Store(refs, objects, inodes)
    }

    constructor (s: Store)
      ensures State() == s
    {
      refs, objects, inodes := s.refs, s.objects, s.inodes;
    }

    /** The reference entries of one root, on top of what earlier roots contributed. */
    method ScanRefs(entries: seq<Path>, marked: set<string>, cutoff: int, found: seq<Candidate>,
                    counts: map<Inode, nat>, ghost seen: seq<Path>)
      returns (ok: bool, candidates: seq<Candidate>, removals: map<Inode, nat>)
      requires WellLinked(State()) && Distinct(seen + entries)
      requires forall p | p in entries :: p in refs
      requires RefsScanned(State(), seen, marked, cutoff, found, counts)
      ensures ok <==> forall p | p in entries :: Intact(State(), p)
      ensures ok ==> RefsScanned(State(), seen + entries, marked, cutoff, candidates, removals)
    {
      hide WellLinked, Removable, Expired, RefsScanned, Distinct;
      candidates, removals := found, counts;
      assert seen + entries[..0] == seen;
      for index := 0 to |entries|
        invariant forall i | 0 <= i < index :: OriginalExists(State(), entries[i]) && Intact(State(), entries[i])
        invariant RefsScanned(State(), seen + entries[..index], marked, cutoff, candidates, removals)
      {
        var p := entries[index];
        RefsExist(State(), p);
        var ref := refs[p];
        if !(ref.valid && inodes[ref.original].size == ref.bytes
             && ref.objectPath in objects && objects[ref.objectPath] == ref.original) {
          assert !Intact(State(), p) && p in entries;
          return false, candidates, removals;
        }
        NotSeen(seen, entries, index);
        RefScanned(State(), seen + entries[..index], p, marked, cutoff, candidates, removals);
        if Removable(ref, marked, cutoff) {
          candidates := candidates + [Candidate(p, ref.bytes, ref.node, ref.directory)];
          removals := removals[ref.original := Removals(removals, ref.original) + 1];
        }
      }
      assert entries[..|entries|] == entries;
      ok := true;
    }

    /** The object entries of one root, given the removals counted so far. */
    method ScanObjects(entries: seq<Path>, cutoff: int, found: seq<Candidate>, removals: map<Inode, nat>,
                       ghost removable: set<Path>, ghost seen: seq<Path>)
      returns (candidates: seq<Candidate>)
      requires WellLinked(State()) && Distinct(seen + entries)
      requires forall p | p in entries :: p in objects
      requires ObjectsScanned(State(), seen, found, Paths(found)) && Counts(refs, removable, removals)
      ensures ObjectsScanned(State(), seen + entries, candidates,
                             Paths(found) + set p | p in entries && DeadObject(State(), removable, p, cutoff))
    {
      hide WellLinked, Expired, Distinct;
      candidates := found;
      ghost var dead := Paths(found);
      assert seen + entries[..0] == seen;
      for index := 0 to |entries|
        invariant dead == Paths(found) + set p | p in entries[..index] && DeadObject(State(), removable, p, cutoff)
        invariant ObjectsScanned(State(), seen + entries[..index], candidates, dead)
      {
        var p := entries[index];
        ObjectsExist(State(), p);
        var node := objects[p];
        var info := inodes[node];
        NotSeen(seen, entries, index);
        assert entries[..index + 1] == entries[..index] + [p];
        if Expired(info.times, cutoff) && info.links - Removals(removals, node) == 1 {
          var candidate := Candidate(p, info.size, node, info.times);
          assert Paths(candidates + [candidate]) == Paths(candidates) + {p};
          candidates := candidates + [candidate];
          dead := dead + {p};
        }
      }
      assert entries[..|entries|] == entries;
    }

    /** Everything is read and validated before anything is deleted. */
    method Scan(roots: seq<Root>, marked: set<string>, cutoff: int) returns (plan: Plan)
      requires WellLinked(State()) && Listed(State(), roots)
      ensures plan.Plan? <==> forall p | p in RefsOf(roots) :: Intact(State(), p)
      ensures plan.Plan? ==> PlanFor(State(), roots, marked, cutoff, plan)
    {
      hide WellLinked, Distinct, Intact, Counts;
      var references, objectFiles, removals := [], [], map[];
      NothingScanned(State(), marked, cutoff);
      for index := 0 to |roots|
        invariant forall p | p in RefsOf(roots[..index]) :: OriginalExists(State(), p) && Intact(State(), p)
        invariant RefsScanned(State(), RefsOf(roots[..index]), marked, cutoff, references, removals)
        invariant ObjectsScanned(State(), ObjectsOf(roots[..index]), objectFiles,
                                 DeadObjects(State(), roots[..index], marked, cutoff))
      {
        var root := roots[index];
        ghost var front := roots[..index];
        assert roots[..index + 1][..index] == front;
        PrefixListed(State(), roots, index);
        var ok;
        ok, references, removals := ScanRefs(root.refs, marked, cutoff, references, removals, RefsOf(front));
        if !ok {
          return Corrupt;
        }
        objectFiles := ScanObjects(root.objects, cutoff, objectFiles, removals, Paths(references), ObjectsOf(front));
        forall p | p in root.refs ensures OriginalExists(State(), p) {
          RefsExist(State(), p);
        }
      }
      assert roots[..|roots|] == roots;
      plan := Plan(references, objectFiles);
    }

    method Unlink(node: Inode, now: int)
      requires node in inodes && inodes[node].links > 0
      modifies `inodes
      ensures inodes == Unlinked(old(inodes), node, now)
    {
      var info := inodes[node];
      inodes := inodes[node := Stat(Times(info.times.mtime, now), info.size, info.links - 1)];
    }

    /** The applied sweep: candidates are checked again first, and an object is deleted only while
        its link count is 1. */
    method Sweep(references: seq<Candidate>, objectFiles: seq<Candidate>, now: int)
      returns (ok: bool, removedReferences: nat, removedObjects: nat)
      requires WellLinked(State()) && DistinctPaths(references) && DistinctPaths(objectFiles)
      modifies this
      ensures ok <==> old((forall c | c in references :: RefUnchanged(State(), c))
                          && forall c | c in objectFiles :: ObjectUnchanged(State(), c))
      ensures !ok ==> State() == old(State())
      ensures ok ==> Swept(old(State()), references, objectFiles, State())
      ensures ok ==> removedReferences == |references| && removedObjects == |LastLinks(old(State()), references, objectFiles)|
    {
      removedReferences, removedObjects := 0, 0;
      for index := 0 to |references|
        invariant State() == old(State())
        invariant forall i | 0 <= i < index :: RefUnchanged(State(), references[i])
      {
        var c := references[index];
        if !(c.path in refs && refs[c.path].node == c.node && refs[c.path].directory == c.times) {
          assert !RefUnchanged(State(), c) && c in references;
          return false, 0, 0;
        }
      }
      for index := 0 to |objectFiles|
        invariant State() == old(State())
        invariant forall i | 0 <= i < index :: ObjectUnchanged(State(), objectFiles[i])
      {
        var c := objectFiles[index];
        if !(c.path in objects && objects[c.path] == c.node && c.node in inodes && inodes[c.node].times == c.times) {
          assert !ObjectUnchanged(State(), c) && c in objectFiles;
          return false, 0, 0;
        }
      }
      RemoveRefs(references, now);
      removedReferences := |references|;
      ghost var mid := State();
      removedObjects := RemoveObjects(old(State()), references, objectFiles, now);
      SweptByBoth(old(State()), references, objectFiles, mid, State());
      ok := true;
    }

    method RemoveRefs(references: seq<Candidate>, now: int)
      requires WellLinked(State()) && DistinctPaths(references)
      requires forall c | c in references :: c.path in refs
      modifies `refs, `inodes
      ensures RefsRemoved(old(State()), Paths(references), State())
    {
      hide WellLinked, DistinctPaths, Paths, RefsRemoved, Unlinked;
      NoneRemoved(State());
      for index := 0 to |references|
        invariant objects == old(objects)
        invariant RefsRemoved(old(State()), Paths(references[..index]), State())
      {
        var p := references[index].path;
        NotYet(references, index);
        NextPath(references, index);
        RemovingOne(old(State()), Paths(references[..index]), State(), p, now);
        var ref := refs[p];
        refs := refs - {p};
        Unlink(ref.original, now);
      }
      assert references[..|references|] == references;
    }

    method RemoveObjects(ghost before: Store, ghost references: seq<Candidate>, objectFiles: seq<Candidate>, now: int)
      returns (removed: nat)
      requires WellLinked(before) && RefsRemoved(before, Paths(references), State())
      requires DistinctPaths(objectFiles)
      requires forall c | c in objectFiles :: ObjectUnchanged(before, c)
      modifies `objects, `inodes
      ensures refs == old(refs)
      ensures ObjectsRemoved(before, old(State()), LastLinks(before, references, objectFiles), State())
      ensures removed == |LastLinks(before, references, objectFiles)|
    {
      hide WellLinked, DistinctPaths, Paths, RefsRemoved, ObjectsRemoved, Unlinked, LastLinks;
      removed := 0;
      ghost var mid := State();
      NoObjectsRemoved(before, references, mid);
      for index := 0 to |objectFiles|
        invariant refs == mid.refs
        invariant ObjectsRemoved(before, mid, LastLinks(before, references, objectFiles[..index]), State())
        invariant removed == |LastLinks(before, references, objectFiles[..index])|
      {
        var c := objectFiles[index];
        LastLinkStep(before, references, objectFiles, index, mid, State(), now);
        var info := inodes[c.node];
        if info.links == 1 && objects[c.path] == c.node {
          objects := objects - {c.path};
          Unlink(c.node, now);
          removed := removed + 1;
        }
      }
      assert objectFiles[..|objectFiles|] == objectFiles;
    }

    /** collectAttachmentGarbage. */
    method Collect(sources: seq<seq<Json>>, roots: seq<Root>, graceMs: int, now: int, offline: bool, apply: bool)
      returns (r: Result)
      requires WellLinked(State()) && Listed(State(), roots)
      modifies this
      ensures r.Failed? || !apply ==> State() == old(State())
      ensures r.Done? <==> (apply ==> offline) && graceMs >= 0 && roots != [] && sources != []
                           && old(forall p | p in RefsOf(roots) :: Intact(State(), p))
      ensures r.Done? ==> InOrder(old(State()), roots)
      ensures r.Done? ==> PredictedFor(old(State()), roots, RecordReferences(sources), now - graceMs, r.report)
      ensures r.Done? && apply ==>
                && r.report.removedReferences == r.report.candidateReferences
                && r.report.removedObjects == r.report.candidateObjects
                && Collected(old(State()), roots, RecordReferences(sources), now - graceMs, State())
      ensures r.Done? && apply ==> Occupied(old(State())) == Occupied(State()) + r.report.reclaimableBytes
      ensures r.Done? ==> r.report.dryRun == !apply
      ensures r.Done? && !apply ==> r.report.removedReferences == r.report.removedObjects == 0
    {
      hide WellLinked, RemovableRefs, DeadObjects, Intact, InOrder, RecordReferences, Swept, Distinct;
      if apply && !offline {
        return Failed(NotOffline);
      }
      if graceMs < 0 {
        return Failed(InvalidTime);
      }
      if roots == [] {
        return Failed(NoRoots);
      }
      if sources == [] {
        return Failed(NoSources);
      }
      IntactInOrder(State(), roots);
      var marked := MarkAll(sources);
      var plan := Scan(roots, marked, now - graceMs);
      if plan.Corrupt? {
        return Failed(Corrupted);
      }
      var report := Report(|plan.refs|, |plan.objects|, TotalBytes(plan.objects), 0, 0, !apply);
      assert PlanFor(State(), roots, marked, now - graceMs, plan);
      if !apply {
        return Done(report);
      }
      var ok, removedReferences, removedObjects := Sweep(plan.refs, plan.objects, now);
      if !ok {
        assert false;
        return Failed(ChangedDuringGc);
      }
      PlannedIsSwept(old(State()), roots, marked, now - graceMs, plan, State());
      ReclaimedIsFreed(old(State()), roots, marked, now - graceMs, plan, State());
      r := Done(report.(removedReferences := removedReferences, removedObjects := removedObjects));
    }
  }

  ghost predicate ObjectsScanned(s: Store, seen: seq<Path>, candidates: seq<Candidate>, dead: set<Path>) {
    && DistinctPaths(candidates) && Paths(candidates) == dead
    && (forall p | p in dead :: p in seen)
    && forall c | c in candidates :: ObjectUnchanged(s, c) && c.bytes == s.inodes[c.node].size
  }

  /** Every listed reference has its metadata in order, its original of the size it says, and its object
      on the same inode. */
  ghost predicate InOrder(s: Store, roots: seq<Root>) {
    forall p | p in RefsOf(roots) ::
      && p in s.refs && s.refs[p].valid && s.refs[p].original in s.inodes
      && s.inodes[s.refs[p].original].size == s.refs[p].bytes
      && s.refs[p].objectPath in s.objects && s.objects[s.refs[p].objectPath] == s.refs[p].original
  }

  lemma IntactInOrder(s: Store, roots: seq<Root>)
    requires WellLinked(s) && Listed(s, roots)
    ensures (forall p | p in RefsOf(roots) :: Intact(s, p)) <==> InOrder(s, roots)
  {
    hide Distinct;
    if forall p | p in RefsOf(roots) :: Intact(s, p) {
      forall p | p in RefsOf(roots)
        ensures s.refs[p].valid && s.inodes[s.refs[p].original].size == s.refs[p].bytes
      {
        assert Intact(s, p);
      }
    }
  }

  ghost predicate OriginalExists(s: Store, p: Path) {
    p in s.refs && s.refs[p].original in s.inodes
  }

  lemma RefsExist(s: Store, p: Path)
    requires WellLinked(s) && p in s.refs
    ensures s.refs[p].original in s.inodes
  {
  }

  lemma ObjectsExist(s: Store, p: Path)
    requires WellLinked(s) && p in s.objects
    ensures s.objects[p] in s.inodes
  {
  }

  lemma NothingScanned(s: Store, marked: set<string>, cutoff: int)
    ensures RefsScanned(s, RefsOf([]), marked, cutoff, [], map[])
    ensures ObjectsScanned(s, ObjectsOf([]), [], DeadObjects(s, [], marked, cutoff))
  {
    forall n ensures RefLinks(s.refs, Paths([]), n) == {} {
    }
  }

  lemma {:induction false} RefsPrefix(roots: seq<Root>, n: nat)
    requires n <= |roots|
    ensures RefsOf(roots[..n]) <= RefsOf(roots) && ObjectsOf(roots[..n]) <= ObjectsOf(roots)
  {
    if n < |roots| {
      assert roots[..|roots| - 1][..n] == roots[..n];
      RefsPrefix(roots[..|roots| - 1], n);
    } else {
      assert roots[..n] == roots;
    }
  }

  lemma PrefixParts<T>(part: seq<T>, whole: seq<T>)
    requires Distinct(whole) && part <= whole
    ensures Distinct(part) && forall x | x in part :: x in whole
  {
    assert forall i | 0 <= i < |part| :: part[i] == whole[i];
  }

  lemma PrefixListed(s: Store, roots: seq<Root>, n: nat)
    requires Listed(s, roots) && n < |roots|
    ensures RefsOf(roots[..n + 1]) == RefsOf(roots[..n]) + roots[n].refs
    ensures ObjectsOf(roots[..n + 1]) == ObjectsOf(roots[..n]) + roots[n].objects
    ensures Distinct(RefsOf(roots[..n + 1])) && Distinct(ObjectsOf(roots[..n + 1]))
    ensures (forall p | p in roots[n].refs :: p in s.refs && p in RefsOf(roots))
    ensures forall p | p in roots[n].objects :: p in s.objects
  {
    hide Distinct;
    RefsPrefix(roots, n + 1);
    assert roots[..n + 1][..n] == roots[..n];
    PrefixParts(RefsOf(roots[..n + 1]), RefsOf(roots));
    PrefixParts(ObjectsOf(roots[..n + 1]), ObjectsOf(roots));
    assert forall p | p in roots[n].refs :: p in RefsOf(roots[..n + 1]);
    assert forall p | p in roots[n].objects :: p in ObjectsOf(roots[..n + 1]);
  }

  // ---------- what the sweep does ----------

  /** Objects whose only remaining link, once the references are gone, is themselves. */
  ghost function LastLinks(s: Store, references: seq<Candidate>, objectFiles: seq<Candidate>): set<Path> {
    set c | c in objectFiles && c.node in s.inodes
            && s.inodes[c.node].links - |RefLinks(s.refs, Paths(references), c.node)| == 1 :: c.path
  }

  /** The references in `removed` are gone, and their originals lost that many links. */
  ghost predicate RefsRemoved(before: Store, removed: set<Path>, after: Store) {
    && after.refs == before.refs - removed && after.objects == before.objects
    && after.inodes.Keys == before.inodes.Keys
    && forall n | n in before.inodes ::
         && after.inodes[n].size == before.inodes[n].size
         && after.inodes[n].links == before.inodes[n].links - |RefLinks(before.refs, removed, n)|
  }

  /** The objects in `removed` are gone as well, and only their inodes lost their last link. */
  ghost predicate ObjectsRemoved(before: Store, mid: Store, removed: set<Path>, after: Store) {
    && after.objects == before.objects - removed
    && after.inodes.Keys == before.inodes.Keys == mid.inodes.Keys
    && forall n | n in before.inodes ::
         && after.inodes[n].size == before.inodes[n].size
         && after.inodes[n].links
            == if exists p :: p in removed && p in before.objects && before.objects[p] == n then 0
               else mid.inodes[n].links
  }

  ghost predicate Swept(before: Store, references: seq<Candidate>, objectFiles: seq<Candidate>, after: Store) {
    var gone := LastLinks(before, references, objectFiles);
    && after.refs == before.refs - Paths(references)
    && after.objects == before.objects - gone
    && after.inodes.Keys == before.inodes.Keys
    && forall n | n in before.inodes ::
         && after.inodes[n].size == before.inodes[n].size
         && after.inodes[n].links
            == if exists p :: p in gone && p in before.objects && before.objects[p] == n then 0
               else before.inodes[n].links - |RefLinks(before.refs, Paths(references), n)|
  }

  lemma NoneRemoved(s: Store)
    ensures RefsRemoved(s, {}, s) && Paths([]) == {}
  {
    forall n ensures RefLinks(s.refs, {}, n) == {} {
    }
  }

  lemma NotYet(cs: seq<Candidate>, index: nat)
    requires DistinctPaths(cs) && index < |cs|
    ensures cs[index].path !in Paths(cs[..index])
  {
  }

  lemma NextPath(cs: seq<Candidate>, index: nat)
    requires index < |cs|
    ensures Paths(cs[..index + 1]) == Paths(cs[..index]) + {cs[index].path}
  {
    assert cs[..index + 1] == cs[..index] + [cs[index]];
  }

  /** Removing one more reference unlinks its original exactly once. */
  lemma RemovingOne(before: Store, removed: set<Path>, now: Store, p: Path, time: int)
    requires WellLinked(before) && RefsRemoved(before, removed, now) && p in before.refs && p !in removed
    ensures p in now.refs && now.refs[p].original in now.inodes && now.inodes[now.refs[p].original].links > 0
    ensures RefsRemoved(before, removed + {p},
                        Store(now.refs - {p}, now.objects, Unlinked(now.inodes, now.refs[p].original, time)))
  {
    hide RefLinks;
    var node := before.refs[p].original;
    RefLinksAdd(before.refs, removed, p);
    LinksWithin(before, removed + {p}, node);
    assert now.refs - {p} == before.refs - (removed + {p});
  }

  lemma LinksWithin(s: Store, removed: set<Path>, node: Inode)
    requires WellLinked(s) && node in s.inodes
    ensures |RefLinks(s.refs, removed, node)| <= s.inodes[node].links
  {
    SubsetCount(RefLinks(s.refs, removed, node), RefLinks(s.refs, s.refs.Keys, node));
  }

  lemma NoObjectsRemoved(before: Store, references: seq<Candidate>, mid: Store)
    requires RefsRemoved(before, Paths(references), mid)
    ensures LastLinks(before, references, []) == {} && ObjectsRemoved(before, mid, {}, mid)
  {
  }

  lemma LastLinksNext(before: Store, references: seq<Candidate>, objectFiles: seq<Candidate>, index: nat)
    requires index < |objectFiles| && objectFiles[index].node in before.inodes
    ensures var c := objectFiles[index];
            LastLinks(before, references, objectFiles[..index + 1])
            == LastLinks(before, references, objectFiles[..index])
               + if before.inodes[c.node].links - |RefLinks(before.refs, Paths(references), c.node)| == 1 then {c.path} else {}
  {
    hide RefLinks, Paths;
    assert objectFiles[..index + 1] == objectFiles[..index] + [objectFiles[index]];
  }

  /** No object of the same inode has gone before: the count an object shows during the sweep is
      the one the references left it. */
  lemma NotRemovedYet(before: Store, references: seq<Candidate>, objectFiles: seq<Candidate>, index: nat)
    requires WellLinked(before) && DistinctPaths(objectFiles) && index < |objectFiles|
    requires forall c | c in objectFiles :: ObjectUnchanged(before, c)
    ensures var gone := LastLinks(before, references, objectFiles[..index]);
            forall p | p in gone && p in before.objects :: before.objects[p] != objectFiles[index].node
    ensures objectFiles[index].path !in LastLinks(before, references, objectFiles[..index])
  {
    hide WellLinked, RefLinks, Paths;
    var c, gone := objectFiles[index], LastLinks(before, references, objectFiles[..index]);
    assert ObjectUnchanged(before, c);
    forall p | p in gone && p in before.objects
      ensures before.objects[p] != c.node
    {
      var d :| d in objectFiles[..index] && d.path == p && d.node in before.inodes
               && before.inodes[d.node].links - |RefLinks(before.refs, Paths(references), d.node)| == 1;
      assert d in objectFiles && ObjectUnchanged(before, d);
      if before.objects[p] == c.node {
        OnlyObject(before, Paths(references), p, c.path);
      }
    }
  }

  lemma LastLinkStep(before: Store, references: seq<Candidate>, objectFiles: seq<Candidate>, index: nat,
                     mid: Store, now: Store, time: int)
    requires WellLinked(before) && RefsRemoved(before, Paths(references), mid)
    requires DistinctPaths(objectFiles) && index < |objectFiles|
    requires forall c | c in objectFiles :: ObjectUnchanged(before, c)
    requires ObjectsRemoved(before, mid, LastLinks(before, references, objectFiles[..index]), now)
    ensures var c, gone := objectFiles[index], LastLinks(before, references, objectFiles[..index]);
            && c.node in now.inodes && c.path in now.objects && now.objects[c.path] == c.node && c.path !in gone
            && var next := LastLinks(before, references, objectFiles[..index + 1]);
            if now.inodes[c.node].links == 1 then
              && next == gone + {c.path}
              && ObjectsRemoved(before, mid, next,
                                Store(now.refs, now.objects - {c.path}, Unlinked(now.inodes, c.node, time)))
            else next == gone
  {
    hide WellLinked, RefLinks, Paths, LastLinks, DistinctPaths;
    var c, gone := objectFiles[index], LastLinks(before, references, objectFiles[..index]);
    assert c in objectFiles && ObjectUnchanged(before, c);
    NotRemovedYet(before, references, objectFiles, index);
    LastLinksNext(before, references, objectFiles, index);
  }

  /** Two objects on one inode keep its link count above 1 after any references are removed. */
  lemma OnlyObject(s: Store, removed: set<Path>, p: Path, q: Path)
    requires WellLinked(s) && p in s.objects && q in s.objects && s.objects[p] == s.objects[q]
    requires s.inodes[s.objects[p]].links - |RefLinks(s.refs, removed, s.objects[p])| == 1
    ensures p == q
  {
    var node := s.objects[p];
    SubsetCount(RefLinks(s.refs, removed, node), RefLinks(s.refs, s.refs.Keys, node));
    SubsetCount({p, q}, ObjectLinks(s.objects, node));
  }

  lemma SweptByBoth(before: Store, references: seq<Candidate>, objectFiles: seq<Candidate>, mid: Store, after: Store)
    requires RefsRemoved(before, Paths(references), mid) && after.refs == mid.refs
    requires ObjectsRemoved(before, mid, LastLinks(before, references, objectFiles), after)
    ensures Swept(before, references, objectFiles, after)
  {
    hide RefLinks, Paths, LastLinks;
  }

  // ---------- the whole collection ----------

  /** The dry-run figures: how many references and objects, and how many bytes, would go. */
  ghost predicate PredictedFor(s: Store, roots: seq<Root>, marked: set<string>, cutoff: int, report: Report) {
    exists plan :: PlanFor(s, roots, marked, cutoff, plan)
                   && report.candidateReferences == |plan.refs| && report.candidateObjects == |plan.objects|
                   && report.reclaimableBytes == TotalBytes(plan.objects)
  }

  /** Exactly the listed removable references and the selected objects are gone. */
  ghost predicate Collected(before: Store, roots: seq<Root>, marked: set<string>, cutoff: int, after: Store) {
    && after.refs == before.refs - RemovableRefs(before, RefsOf(roots), marked, cutoff)
    && after.objects == before.objects - DeadObjects(before, roots, marked, cutoff)
    && after.inodes.Keys == before.inodes.Keys
    && forall n | n in before.inodes ::
         && after.inodes[n].size == before.inodes[n].size
         && after.inodes[n].links
            == if exists p :: p in DeadObjects(before, roots, marked, cutoff) && p in before.objects && before.objects[p] == n
               then 0
               else before.inodes[n].links - |RefLinks(before.refs, RemovableRefs(before, RefsOf(roots), marked, cutoff), n)|
  }

  lemma FrontDistinct(cs: seq<Candidate>)
    requires cs != [] && DistinctPaths(cs)
    ensures DistinctPaths(cs[..|cs| - 1])
  {
    var front := cs[..|cs| - 1];
    assert forall i | 0 <= i < |front| :: front[i] == cs[i];
  }

  lemma {:induction false} PathCount(cs: seq<Candidate>)
    requires DistinctPaths(cs)
    ensures |Paths(cs)| == |cs|
  {
    if cs == [] {
      assert Paths(cs) == {};
    } else {
      var n := |cs| - 1;
      FrontDistinct(cs);
      PathCount(cs[..n]);
      NotYet(cs, n);
      NextPath(cs, n);
      hide DistinctPaths, Paths;
      assert cs[..n + 1] == cs;
    }
  }

  /** Every planned object is on its last link once the planned references are gone. */
  lemma PlannedAreLast(s: Store, roots: seq<Root>, marked: set<string>, cutoff: int, plan: Plan)
    requires WellLinked(s) && PlanFor(s, roots, marked, cutoff, plan)
    ensures LastLinks(s, plan.refs, plan.objects) == Paths(plan.objects)
  {
    hide WellLinked, RemovableRefs, DeadObjects, RefLinks, ObjectLinks;
    forall c | c in plan.objects
      ensures c.node in s.inodes && s.inodes[c.node].links - |RefLinks(s.refs, Paths(plan.refs), c.node)| == 1
    {
      assert ObjectUnchanged(s, c) && c.path in Paths(plan.objects);
      DeadObjectsLastLink(s, roots, marked, cutoff, c.path);
    }
  }

  lemma PlannedIsSwept(s: Store, roots: seq<Root>, marked: set<string>, cutoff: int, plan: Plan, after: Store)
    requires WellLinked(s) && PlanFor(s, roots, marked, cutoff, plan)
    requires Swept(s, plan.refs, plan.objects, after)
    ensures Collected(s, roots, marked, cutoff, after)
    ensures |LastLinks(s, plan.refs, plan.objects)| == |plan.objects|
  {
    hide WellLinked, RemovableRefs, DeadObjects, RefLinks;
    PlannedAreLast(s, roots, marked, cutoff, plan);
    PathCount(plan.objects);
  }

  /** Marked, or its directory or metadata touched within the grace period. */
  predicate Protected(r: Ref, marked: set<string>, cutoff: int) {
    || r.id in marked
    || r.directory.mtime > cutoff || r.directory.ctime > cutoff || r.metadata.mtime > cutoff || r.metadata.ctime > cutoff
  }

  /** A listed reference goes if and only if it is not protected. */
  lemma UnprotectedGo(before: Store, roots: seq<Root>, marked: set<string>, cutoff: int, after: Store, p: Path)
    requires Listed(before, roots) && Collected(before, roots, marked, cutoff, after) && p in RefsOf(roots)
    ensures p !in after.refs <==> !Protected(before.refs[p], marked, cutoff)
  {
  }

  /** Safe: after a collection every marked or recent reference is still there, with its original
      still linked and, where it was intact, its object in place on the same inode. */
  lemma CollectionIsSafe(before: Store, roots: seq<Root>, marked: set<string>, cutoff: int, after: Store, p: Path)
    requires WellLinked(before) && Collected(before, roots, marked, cutoff, after)
    requires p in before.refs && (Protected(before.refs[p], marked, cutoff) || p !in RefsOf(roots))
    ensures p in after.refs && after.refs[p] == before.refs[p]
    ensures var r := before.refs[p];
            && r.original in after.inodes && after.inodes[r.original].links >= 1
            && after.inodes[r.original].size == before.inodes[r.original].size
            && (Intact(before, p) ==>
                  && r.objectPath in after.objects && after.objects[r.objectPath] == r.original
                  && after.inodes[r.original].links >= 2)
  {
    hide DeadObjects;
    var r, gone := before.refs[p], RemovableRefs(before, RefsOf(roots), marked, cutoff);
    var node := r.original;
    var every, lost := RefLinks(before.refs, before.refs.Keys, node), RefLinks(before.refs, gone, node);
    assert p in every && p !in lost;
    SubsetCount(lost + {p}, every);
    if q :| q in DeadObjects(before, roots, marked, cutoff) && q in before.objects && before.objects[q] == node {
      DeadObjectsLastLink(before, roots, marked, cutoff, q);
    }
    if Intact(before, p) {
      KeptRefsKeepObjects(before, roots, marked, cutoff, p);
      SubsetCount({r.objectPath}, ObjectLinks(before.objects, node));
    }
  }

  /** Narrow: an object goes only when it is past the grace period and no reference, object or
      outside link to its inode remains. */
  lemma CollectionIsNarrow(before: Store, roots: seq<Root>, marked: set<string>, cutoff: int, after: Store, p: Path)
    requires WellLinked(before) && Collected(before, roots, marked, cutoff, after)
    requires p in before.objects && p !in after.objects
    ensures var node := before.objects[p];
            && before.inodes[node].times.mtime <= cutoff && before.inodes[node].times.ctime <= cutoff && p in ObjectsOf(roots)
            && after.inodes[node].links == 0
            && (forall q | q in after.objects :: after.objects[q] != node)
            && forall q | q in after.refs :: after.refs[q].original != node
  {
    hide RemovableRefs;
    var node := before.objects[p];
    var removable := DeadObjectFound(before, roots, marked, cutoff, p);
    DeadObjectsLastLink(before, roots, marked, cutoff, p);
    assert forall q | q in before.objects && before.objects[q] == node :: q in ObjectLinks(before.objects, node);
    assert forall q | q in before.refs && before.refs[q].original == node ::
             q in RefLinks(before.refs, before.refs.Keys, node);
  }

  /** An object's path lies under its reference's own root, so no other root lists it. */
  ghost predicate OwnRoot(s: Store, roots: seq<Root>) {
    forall i, j, r | 0 <= i < |roots| && 0 <= j < |roots| && r in roots[i].refs && r in s.refs
                     && s.refs[r].objectPath in roots[j].objects :: i == j
  }

  /** Every link of the object's inode is the object itself or a listed, unprotected reference: no other
      object, no reference that stays, and none outside the store. */
  ghost predicate OnlyRemovableLinks(s: Store, roots: seq<Root>, marked: set<string>, cutoff: int, p: Path)
    requires p in s.objects && s.objects[p] in s.inodes
  {
    var node := s.objects[p];
    && (forall q | q in s.objects && s.objects[q] == node :: q == p)
    && (forall r | r in s.refs && s.refs[r].original == node :: r in RefsOf(roots) && !Protected(s.refs[r], marked, cutoff))
    && s.inodes[node].links == |RefLinks(s.refs, s.refs.Keys, node)| + 1
  }

  lemma LinkSets(s: Store, roots: seq<Root>, marked: set<string>, cutoff: int, p: Path)
    requires p in s.objects && s.objects[p] in s.inodes
    ensures var node := s.objects[p];
            OnlyRemovableLinks(s, roots, marked, cutoff, p)
            <==> && ObjectLinks(s.objects, node) == {p}
                 && RefLinks(s.refs, s.refs.Keys, node) <= RemovableRefs(s, RefsOf(roots), marked, cutoff)
                 && s.inodes[node].links == |RefLinks(s.refs, s.refs.Keys, node)| + 1
  {
    var node := s.objects[p];
    assert p in ObjectLinks(s.objects, node);
    assert forall q | q in s.objects && s.objects[q] == node :: q in ObjectLinks(s.objects, node);
    assert forall r | r in s.refs && s.refs[r].original == node :: r in RefLinks(s.refs, s.refs.Keys, node);
  }

  lemma {:induction false} ListedIn(roots: seq<Root>, r: Path) returns (i: nat)
    requires r in RefsOf(roots)
    ensures i < |roots| && r in roots[i].refs
    decreases |roots|
  {
    var front := roots[..|roots| - 1];
    if r in RefsOf(front) {
      i := ListedIn(front, r);
    } else {
      i := |roots| - 1;
    }
  }

  lemma {:induction false} ObjectListedIn(roots: seq<Root>, p: Path) returns (i: nat)
    requires p in ObjectsOf(roots)
    ensures i < |roots| && p in roots[i].objects
    decreases |roots|
  {
    var front := roots[..|roots| - 1];
    if p in ObjectsOf(front) {
      i := ObjectListedIn(front, p);
    } else {
      i := |roots| - 1;
    }
  }

  /** All references to a removable object are in the object's own root, so they have been scanned
      when the object is. */
  lemma LinksScanned(s: Store, roots: seq<Root>, marked: set<string>, cutoff: int, p: Path, i: nat)
    requires OwnRoot(s, roots) && (forall r | r in RefsOf(roots) :: r in s.refs)
    requires forall r | r in RefsOf(roots) :: s.refs[r].original in s.inodes && Intact(s, r)
    requires i < |roots| && p in roots[i].objects && p in s.objects && s.objects[p] in s.inodes
    requires OnlyRemovableLinks(s, roots, marked, cutoff, p)
    ensures var node := s.objects[p];
            RefLinks(s.refs, RemovableRefs(s, RefsOf(roots[..i + 1]), marked, cutoff), node)
            == RefLinks(s.refs, s.refs.Keys, node)
  {
    hide Removable, OnlyRemovableLinks, OwnRoot, RefsOf;
    LinkSets(s, roots, marked, cutoff, p);
    var node, front := s.objects[p], roots[..i + 1];
    var all := RefLinks(s.refs, s.refs.Keys, node);
    forall r | r in all ensures r in RemovableRefs(s, RefsOf(front), marked, cutoff) {
      assert Intact(s, r) && s.refs[r].objectPath in ObjectLinks(s.objects, node);
      LinkScanned(s, roots, p, i, r);
    }
  }

  lemma LinkScanned(s: Store, roots: seq<Root>, p: Path, i: nat, r: Path)
    requires OwnRoot(s, roots) && i < |roots| && p in roots[i].objects
    requires r in RefsOf(roots) && r in s.refs && s.refs[r].objectPath == p
    ensures r in RefsOf(roots[..i + 1])
  {
    hide RefsOf;
    var j := ListedIn(roots, r);
    assert j == i;
    NextRefs(roots, i);
  }

  lemma NextRefs(roots: seq<Root>, i: nat)
    requires i < |roots|
    ensures RefsOf(roots[..i + 1]) == RefsOf(roots[..i]) + roots[i].refs
  {
    assert roots[..i + 1][..i] == roots[..i];
  }

  lemma {:induction false} SelectedStays(s: Store, roots: seq<Root>, marked: set<string>, cutoff: int, p: Path, n: nat)
    requires n <= |roots| && p in DeadObjects(s, roots[..n], marked, cutoff)
    ensures p in DeadObjects(s, roots, marked, cutoff)
    decreases |roots|
  {
    if n < |roots| {
      var front := roots[..|roots| - 1];
      assert front[..n] == roots[..n];
      SelectedStays(s, front, marked, cutoff, p, n);
    } else {
      assert roots[..n] == roots;
    }
  }

  /** Thorough: with any number of roots, in any order, the scan selects an object if and only if it
      is past the grace period and nothing links to its inode but itself and removable references. */
  lemma SelectedExactly(s: Store, roots: seq<Root>, marked: set<string>, cutoff: int, p: Path)
    requires WellLinked(s) && Listed(s, roots) && OwnRoot(s, roots) && p in ObjectsOf(roots)
    requires forall r | r in RefsOf(roots) :: Intact(s, r)
    ensures p in DeadObjects(s, roots, marked, cutoff)
            <==> s.inodes[s.objects[p]].times.mtime <= cutoff && s.inodes[s.objects[p]].times.ctime <= cutoff
                 && OnlyRemovableLinks(s, roots, marked, cutoff, p)
  {
    hide RemovableRefs, DeadObjects, RefsOf, ObjectsOf, OwnRoot, Distinct, OnlyRemovableLinks;
    LinkSets(s, roots, marked, cutoff, p);
    if p in DeadObjects(s, roots, marked, cutoff) {
      var part := DeadObjectFound(s, roots, marked, cutoff, p);
      DeadObjectsLastLink(s, roots, marked, cutoff, p);
    } else if OnlyRemovableLinks(s, roots, marked, cutoff, p) {
      var i := ObjectListedIn(roots, p);
      LinksScanned(s, roots, marked, cutoff, p, i);
      ScannedLast(s, roots[..i + 1], marked, cutoff, p);
      if Expired(s.inodes[s.objects[p]].times, cutoff) {
        SelectedStays(s, roots, marked, cutoff, p, i + 1);
      }
    }
  }

  lemma ScannedLast(s: Store, roots: seq<Root>, marked: set<string>, cutoff: int, p: Path)
    requires roots != [] && p in roots[|roots| - 1].objects
    ensures DeadObject(s, RemovableRefs(s, RefsOf(roots), marked, cutoff), p, cutoff) ==> p in DeadObjects(s, roots, marked, cutoff)
  {
  }

  /** So a collection removes exactly the expired objects that nothing else holds. */
  lemma CollectionIsThorough(before: Store, roots: seq<Root>, marked: set<string>, cutoff: int, after: Store, p: Path)
    requires WellLinked(before) && Listed(before, roots) && OwnRoot(before, roots) && p in ObjectsOf(roots)
    requires forall r | r in RefsOf(roots) :: Intact(before, r)
    requires Collected(before, roots, marked, cutoff, after)
    ensures p !in after.objects
            <==> before.inodes[before.objects[p]].times.mtime <= cutoff && before.inodes[before.objects[p]].times.ctime <= cutoff
                 && OnlyRemovableLinks(before, roots, marked, cutoff, p)
  {
    hide DeadObjects, RefsOf, ObjectsOf, OwnRoot, Distinct, OnlyRemovableLinks, RemovableRefs;
    SelectedExactly(before, roots, marked, cutoff, p);
  }

  /** A sweep goes ahead exactly when every planned entry still is what it was during the scan: the same
      directory or inode, with the same two times. */
  lemma SweptOnlyUnchanged(scanned: Store, roots: seq<Root>, marked: set<string>, cutoff: int, plan: Plan, now: Store)
    requires PlanFor(scanned, roots, marked, cutoff, plan)
    ensures (forall c | c in plan.refs :: RefUnchanged(now, c)) && (forall c | c in plan.objects :: ObjectUnchanged(now, c))
            <==> && (forall p | p in Paths(plan.refs) ::
                       p in now.refs && now.refs[p].node == scanned.refs[p].node
                       && now.refs[p].directory.mtime == scanned.refs[p].directory.mtime
                       && now.refs[p].directory.ctime == scanned.refs[p].directory.ctime)
                 && forall p | p in Paths(plan.objects) ::
                      p in scanned.objects && scanned.objects[p] in scanned.inodes
                      && p in now.objects && now.objects[p] == scanned.objects[p] && now.objects[p] in now.inodes
                      && now.inodes[now.objects[p]].times.mtime == scanned.inodes[scanned.objects[p]].times.mtime
                      && now.inodes[now.objects[p]].times.ctime == scanned.inodes[scanned.objects[p]].times.ctime
  {
    hide RemovableRefs, DeadObjects;
    forall c | c in plan.refs ensures c.path in Paths(plan.refs) && RefUnchanged(scanned, c) {
    }
    forall c | c in plan.objects ensures c.path in Paths(plan.objects) && ObjectUnchanged(scanned, c) {
    }
  }

  // ---------- what the records protect ----------

  lemma {:induction false} RecordReferenced(sources: seq<seq<Json>>, i: nat, j: nat, id: string)
    requires i < |sources| && j < |sources[i]| && Carries(sources[i][j], id)
    ensures id in RecordReferences(sources)
    decreases |sources|
  {
    if i == |sources| - 1 {
      ReferencesExact(sources[i][j], id);
      ItemReferenced(sources[i], j, id);
    } else {
      RecordReferenced(sources[..|sources| - 1], i, j, id);
    }
  }

  /** An id carried anywhere inside any record of the sources keeps its reference, its original and its object. */
  lemma RecordedAttachmentStays(before: Store, roots: seq<Root>, sources: seq<seq<Json>>, cutoff: int, after: Store,
                                p: Path, i: nat, j: nat)
    requires WellLinked(before) && Collected(before, roots, RecordReferences(sources), cutoff, after)
    requires p in before.refs && i < |sources| && j < |sources[i]| && Carries(sources[i][j], before.refs[p].id)
    ensures p in after.refs && after.refs[p] == before.refs[p]
    ensures var r := before.refs[p];
            && r.original in after.inodes && after.inodes[r.original].links >= 1
            && (Intact(before, p) ==> r.objectPath in after.objects && after.objects[r.objectPath] == r.original)
  {
    hide Carries, WellLinked, Collected, Intact;
    RecordReferenced(sources, i, j, before.refs[p].id);
    CollectionIsSafe(before, roots, RecordReferences(sources), cutoff, after, p);
  }

  // ---------- the space that is freed ----------

  /** The bytes of some inodes. */
  ghost function Bytes(inodes: map<Inode, Stat>, nodes: set<Inode>): nat
    requires nodes <= inodes.Keys
  {
    if nodes == {} then 0 else var n :| n in nodes; inodes[n].size + Bytes(inodes, nodes - {n})
  }

  lemma {:induction false} BytesWithout(inodes: map<Inode, Stat>, nodes: set<Inode>, n: Inode)
    requires nodes <= inodes.Keys && n in nodes
    ensures Bytes(inodes, nodes) == inodes[n].size + Bytes(inodes, nodes - {n})
    decreases |nodes|
  {
    var m :| m in nodes && Bytes(inodes, nodes) == inodes[m].size + Bytes(inodes, nodes - {m});
    if m != n {
      BytesWithout(inodes, nodes - {m}, n);
      BytesWithout(inodes, nodes - {n}, m);
      assert nodes - {m} - {n} == nodes - {n} - {m};
    }
  }

  /** The inodes that something still links to, and the bytes they occupy. */
  ghost function Linked(s: Store): set<Inode> {
    set n | n in s.inodes && s.inodes[n].links > 0
  }

  ghost function Occupied(s: Store): nat {
    Bytes(s.inodes, Linked(s))
  }

  function Nodes(cs: seq<Candidate>): set<Inode> {
    set c | c in cs :: c.node
  }

  lemma {:induction false} BytesDiffer(a: map<Inode, Stat>, b: map<Inode, Stat>, nodes: set<Inode>)
    requires nodes <= a.Keys && nodes <= b.Keys && forall n | n in nodes :: a[n].size == b[n].size
    ensures Bytes(a, nodes) == Bytes(b, nodes)
    decreases |nodes|
  {
    if nodes != {} {
      var n :| n in nodes;
      BytesWithout(a, nodes, n);
      BytesWithout(b, nodes, n);
      BytesDiffer(a, b, nodes - {n});
    }
  }

  lemma {:induction false} NodesLeave(inodes: map<Inode, Stat>, all: set<Inode>, cs: seq<Candidate>)
    requires all <= inodes.Keys && Nodes(cs) <= all
    requires forall i | 0 <= i < |cs| :: cs[i].bytes == inodes[cs[i].node].size
    requires forall i, j | 0 <= i < j < |cs| :: cs[i].node != cs[j].node
    ensures Bytes(inodes, all) == Bytes(inodes, all - Nodes(cs)) + TotalBytes(cs)
    decreases |cs|
  {
    if cs == [] {
      assert all - Nodes(cs) == all;
    } else {
      var front, last := cs[..|cs| - 1], cs[|cs| - 1];
      assert Nodes(front) <= Nodes(cs);
      NodesLeave(inodes, all, front);
      assert last.node !in Nodes(front);
      assert last in cs && last.node in Nodes(cs);
      BytesWithout(inodes, all - Nodes(front), last.node);
      assert all - Nodes(front) - {last.node} == all - Nodes(cs);
    }
  }

  /** No two planned objects share an inode. */
  lemma PlannedApart(s: Store, roots: seq<Root>, marked: set<string>, cutoff: int, plan: Plan, i: nat, j: nat)
    requires WellLinked(s) && PlanFor(s, roots, marked, cutoff, plan) && i < j < |plan.objects|
    ensures plan.objects[i].node != plan.objects[j].node
  {
    hide RemovableRefs, DeadObjects, WellLinked;
    var a, b := plan.objects[i], plan.objects[j];
    assert ObjectUnchanged(s, a) && ObjectUnchanged(s, b);
    assert a.path in Paths(plan.objects);
    assert a.node == b.node ==> b.path in ObjectLinks(s.objects, a.node);
    DeadObjectsLastLink(s, roots, marked, cutoff, a.path);
  }

  /** After a collection an inode is without links only if it was before or held a planned object. */
  lemma LinkedAfter(s: Store, roots: seq<Root>, marked: set<string>, cutoff: int, plan: Plan, after: Store, n: Inode)
    requires WellLinked(s) && PlanFor(s, roots, marked, cutoff, plan) && Collected(s, roots, marked, cutoff, after)
    requires n in s.inodes && forall p | p in RefsOf(roots) && p in s.refs && s.refs[p].original in s.inodes :: Intact(s, p)
    ensures after.inodes[n].links > 0 <==> s.inodes[n].links > 0 && n !in Nodes(plan.objects)
  {
    hide DeadObjects;
    var gone := RefLinks(s.refs, RemovableRefs(s, RefsOf(roots), marked, cutoff), n);
    PlannedNodes(s, roots, marked, cutoff, plan, n);
    if n !in Nodes(plan.objects) {
      SubsetCount(gone, RefLinks(s.refs, s.refs.Keys, n));
      if r :| r in gone {
        assert Intact(s, r);
        SubsetCount({s.refs[r].objectPath}, ObjectLinks(s.objects, n));
      } else {
        assert gone == {};
      }
    } else {
      SubsetCount(RefLinks(s.refs, s.refs.Keys, n), RefLinks(s.refs, s.refs.Keys, n));
    }
  }

  lemma PlannedNodes(s: Store, roots: seq<Root>, marked: set<string>, cutoff: int, plan: Plan, n: Inode)
    requires WellLinked(s) && PlanFor(s, roots, marked, cutoff, plan)
    ensures n in Nodes(plan.objects)
            <==> exists p :: p in DeadObjects(s, roots, marked, cutoff) && p in s.objects && s.objects[p] == n
    ensures n in Nodes(plan.objects) ==> n in s.inodes && s.inodes[n].links > 0
  {
    hide DeadObjects, RemovableRefs, RefLinks;
    if c :| c in plan.objects && c.node == n {
      assert ObjectUnchanged(s, c) && c.path in Paths(plan.objects);
      DeadObjectsLastLink(s, roots, marked, cutoff, c.path);
    }
    if p :| p in DeadObjects(s, roots, marked, cutoff) && p in s.objects && s.objects[p] == n {
      var c :| c in plan.objects && c.path == p;
      assert ObjectUnchanged(s, c);
    }
  }

  /** The reported reclaimable bytes are exactly the space a collection frees. */
  lemma ReclaimedIsFreed(s: Store, roots: seq<Root>, marked: set<string>, cutoff: int, plan: Plan, after: Store)
    requires WellLinked(s) && PlanFor(s, roots, marked, cutoff, plan) && Collected(s, roots, marked, cutoff, after)
    requires forall p | p in RefsOf(roots) && p in s.refs && s.refs[p].original in s.inodes :: Intact(s, p)
    ensures Occupied(s) == Occupied(after) + TotalBytes(plan.objects)
  {
    hide RemovableRefs, DeadObjects, Intact, WellLinked;
    forall n | n in s.inodes ensures n in Linked(after) <==> n in Linked(s) && n !in Nodes(plan.objects) {
      LinkedAfter(s, roots, marked, cutoff, plan, after, n);
    }
    forall n | n in Nodes(plan.objects) ensures n in Linked(s) {
      PlannedNodes(s, roots, marked, cutoff, plan, n);
    }
    assert Linked(after) == Linked(s) - Nodes(plan.objects);
    forall i, j | 0 <= i < j < |plan.objects| ensures plan.objects[i].node != plan.objects[j].node {
      PlannedApart(s, roots, marked, cutoff, plan, i, j);
    }
    NodesLeave(s.inodes, Linked(s), plan.objects);
    BytesDiffer(s.inodes, after.inodes, Linked(after));
  }
}
