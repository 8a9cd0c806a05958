/** Killing and reaping a worker tree from a subreaper, as _process_runtime.py does it on Linux,
    while processes of the tree and others fork, exit, are reaped and reuse identifiers. */
module ProcessContainment {

  type Pid = nat

  /** A process that runs or waits to be reaped. `born` tells incarnations of a pid apart, `ours`
      marks the descendants of the supervisor. */
  datatype Process = Process(parent: Pid, running: bool, born: nat, ours: bool)

  const SUPERVISOR: Pid := 1
  const ELSEWHERE: Pid := 0

  datatype World = World(processes: map<Pid, Process>, clock: nat)

  /** What can happen at any moment without the supervisor. */
  datatype Happening =
    | Fork(parent: Pid, child: Pid)
    | Spawn(pid: Pid)
    | Exit(pid: Pid)
    | ReapedElsewhere(pid: Pid)

  predicate FreePid(w: World, pid: Pid) { pid > 1 && pid !in w.processes }

  /** Orphans of the tree are adopted by the supervisor, other orphans by some other process. */
  function Orphaned(p: Process, parent: Pid): Process
  {
    if p.parent == parent then p.(parent := if p.ours then SUPERVISOR else ELSEWHERE) else p
  }

  function AfterExit(w: World, pid: Pid): World
    requires pid in w.processes
  {
    w.(processes := map q | q in w.processes ::
         if q == pid then w.processes[q].(running := false) else Orphaned(w.processes[q], pid))
  }

  /** The world after a happening; what cannot happen changes nothing. */
  function Happens(w: World, h: Happening): World
  {
    match h
    case Fork(parent, child) =>
      if parent in w.processes && w.processes[parent].running && FreePid(w, child) then
        World(w.processes[child := Process(parent, true, w.clock, w.processes[parent].ours)], w.clock + 1)
      else w
    case Spawn(pid) =>
      if FreePid(w, pid) then World(w.processes[pid := Process(ELSEWHERE, true, w.clock, false)], w.clock + 1) else w
    case Exit(pid) =>
      if pid in w.processes && w.processes[pid].running then AfterExit(w, pid) else w
    case ReapedElsewhere(pid) =>
      if pid in w.processes && !w.processes[pid].running && w.processes[pid].parent != SUPERVISOR then
        w.(processes := w.processes - {pid})
      else w
  }

  // ---------------------------------------------------------------- the tree

  /** Every process of the tree hangs from the supervisor or from an older running process of
      the tree; nothing else hangs from the supervisor. */
  predicate Rooted(w: World, pid: Pid)
    requires pid in w.processes
  {
    var p := w.processes[pid];
    && pid > 1 && p.parent != pid && p.born < w.clock
    && if p.ours then
         p.parent == SUPERVISOR
         || (p.parent in w.processes && w.processes[p.parent].ours && w.processes[p.parent].running
             && w.processes[p.parent].born < p.born)
       else
         p.parent == ELSEWHERE
         || (p.parent in w.processes && !w.processes[p.parent].ours && w.processes[p.parent].running)
  }

  predicate Valid(w: World)
  {
    && (forall pid :: pid in w.processes ==> Rooted(w, pid))
    && (forall p, q :: p in w.processes && q in w.processes && p != q ==> w.processes[p].born != w.processes[q].born)
  }

  function Children(w: World): set<Pid>
  {
    set pid | pid in w.processes && w.processes[pid].parent == SUPERVISOR
  }

  predicate Empty(w: World) { forall pid :: pid in w.processes ==> !w.processes[pid].ours }

  lemma HappeningKeepsValid(w: World, h: Happening)
    requires Valid(w)
    ensures Valid(Happens(w, h))
  {
    match h
    case Exit(pid) => if pid in w.processes && w.processes[pid].running { ExitKeepsValid(w, pid); }
    case ReapedElsewhere(pid) =>
      if pid in w.processes && !w.processes[pid].running { ReapKeepsValid(w, pid); }
    case Fork(parent, child) =>
      if parent in w.processes && w.processes[parent].running && FreePid(w, child) {
        BirthKeepsValid(w, child, parent, w.processes[parent].ours);
      }
    case Spawn(pid) => if FreePid(w, pid) { BirthKeepsValid(w, pid, ELSEWHERE, false); }
  }

  lemma BirthKeepsValid(w: World, child: Pid, parent: Pid, ours: bool)
    requires Valid(w) && FreePid(w, child)
    requires if parent in w.processes then w.processes[parent].running && w.processes[parent].ours == ours
             else parent == ELSEWHERE && !ours
    ensures Valid(World(w.processes[child := Process(parent, true, w.clock, ours)], w.clock + 1))
  {
    var v := World(w.processes[child := Process(parent, true, w.clock, ours)], w.clock + 1);
    if parent in w.processes { assert Rooted(w, parent); }
    forall pid | pid in v.processes ensures Rooted(v, pid) {
      if pid in w.processes { assert Rooted(w, pid); }
    }
    forall p | p in w.processes ensures w.processes[p].born < w.clock { assert Rooted(w, p); }
  }

  lemma ExitKeepsValid(w: World, pid: Pid)
    requires Valid(w) && pid in w.processes && w.processes[pid].running
    ensures Valid(AfterExit(w, pid))
  {
    var v := AfterExit(w, pid);
    forall q | q in v.processes ensures Rooted(v, q) {
      ExitKeepsRooted(w, pid, q);
    }
    hide Rooted;
    assert forall q :: q in v.processes ==> v.processes[q].born == w.processes[q].born;
  }

  lemma ExitKeepsRooted(w: World, pid: Pid, q: Pid)
    requires pid in w.processes && q in w.processes && Rooted(w, q)
    ensures Rooted(AfterExit(w, pid), q)
  {
  }

  /** No happening takes a child from the supervisor or gives its pid to another process. */
  lemma ChildrenStay(w: World, h: Happening)
    requires Valid(w)
    ensures forall pid :: pid in Children(w) ==>
      && pid in Happens(w, h).processes && pid in Children(Happens(w, h))
      && Happens(w, h).processes[pid].born == w.processes[pid].born
  {
    forall pid | pid in Children(w)
      ensures pid in Happens(w, h).processes && pid in Children(Happens(w, h))
      ensures Happens(w, h).processes[pid].born == w.processes[pid].born
    {
      assert Rooted(w, pid);
    }
  }

  /** Without children there is no tree: its oldest process would be a child. */
  lemma {:induction false} OldestIsChild(w: World, pid: Pid)
    requires Valid(w) && pid in w.processes && w.processes[pid].ours
    ensures Children(w) != {}
    decreases w.processes[pid].born
  {
    assert Rooted(w, pid);
    if w.processes[pid].parent == SUPERVISOR {
      assert pid in Children(w);
    } else {
      OldestIsChild(w, w.processes[pid].parent);
    }
  }

  lemma NoChildrenNoTree(w: World)
    requires Valid(w)
    ensures Children(w) == {} <==> Empty(w)
  {
    forall pid | pid in w.processes && w.processes[pid].ours ensures Children(w) != {} {
      OldestIsChild(w, pid);
    }
    if Children(w) != {} {
      var pid :| pid in Children(w);
      assert Rooted(w, pid);
    }
  }

  /** An empty tree stays empty: only its own processes could add to it. */
  lemma EmptyForEver(w: World, h: Happening)
    requires Valid(w) && Empty(w)
    ensures Empty(Happens(w, h))
  {
  }

  // ---------------------------------------------------------------- the supervisor

  /** A supervisor with what goes on around it between any two of its statements. */
  class Supervisor {
    var w: World
    var around: seq<seq<Happening>>
    /** Each signal sent: the pid, and the process that had it then. */
    ghost var signals: seq<(Pid, Process)>

    constructor (w: World, around: seq<seq<Happening>>)
      requires Valid(w)
      ensures this.w == w && this.around == around && signals == []
    {
      this.w, this.around, signals := w, around, [];
    }

    /** Every signal so far went to a child of the supervisor that had not been reaped. */
    ghost predicate OnlyOwnChildren()
      reads this
    {
      forall i :: 0 <= i < |signals| ==> signals[i].1.ours && signals[i].1.parent == SUPERVISOR
    }

    /** Time passes: the next batch of happenings takes place. */
    method Elsewhere()
      requires Valid(w)
      modifies this`w, this`around
      ensures Valid(w) && around == (if old(around) == [] then [] else old(around)[1..])
      ensures old(around) == [] ==> w == old(w)
      ensures Children(old(w)) <= Children(w)
      ensures forall pid :: pid in Children(old(w)) ==> w.processes[pid].born == old(w).processes[pid].born
      ensures Empty(old(w)) ==> Empty(w)
    {
      if around == [] {
        return;
      }
      var batch := around[0];
      around := around[1..];
      var i := 0;
      while i < |batch|
        invariant 0 <= i <= |batch| && Valid(w) && around == old(around)[1..]
        invariant Children(old(w)) <= Children(w)
        invariant forall pid :: pid in Children(old(w)) ==> w.processes[pid].born == old(w).processes[pid].born
        invariant Empty(old(w)) ==> Empty(w)
      {
        hide Valid, Happens, Empty, Children;
        ghost var before := w;
        HappeningKeepsValid(w, batch[i]);
        ChildrenStay(w, batch[i]);
        if Empty(w) { EmptyForEver(w, batch[i]); }
        ChildrenKnown(before);
        ChildrenKnown(old(w));
        w := Happens(w, batch[i]);
        i := i + 1;
      }
    }

    /** Reap exited children; true means that there is no child at all. */
    method ReapChildren() returns (none: bool)
      requires Valid(w)
      modifies this`w, this`around
      ensures Valid(w) && |around| <= |old(around)|
      ensures none ==> Empty(w)
      ensures !none ==> Children(w) != {} && forall pid :: pid in Children(w) ==> w.processes[pid].running
    {
      while true
        invariant Valid(w) && |around| <= |old(around)|
        decreases |around|, |w.processes|
      {
        Elsewhere();
        if Children(w) == {} {
          NoChildrenNoTree(w);
          return true;
        }
        var exited := set pid | pid in Children(w) && !w.processes[pid].running;
        if exited == {} {
          return false;
        }
        var pid :| pid in exited;
        ReapKeepsValid(w, pid);
        assert |w.processes - {pid}| < |w.processes| by { assert (w.processes - {pid}).Keys == w.processes.Keys - {pid}; }
        w := w.(processes := w.processes - {pid});
      }
    }

    /** One signal: the process stops running, if it still ran, and waits to be reaped. */
    method Kill(pid: Pid)
      requires Valid(w) && OnlyOwnChildren() && pid in Children(w)
      modifies this`w, this`signals
      ensures Valid(w) && OnlyOwnChildren() && Children(old(w)) <= Children(w)
      ensures pid in old(w).processes && signals == old(signals) + [(pid, old(w).processes[pid])]
      ensures forall q :: q in Children(old(w)) ==> q in old(w).processes && q in w.processes && w.processes[q].born == old(w).processes[q].born
    {
      assert Rooted(w, pid);
      signals := signals + [(pid, w.processes[pid])];
      hide Valid, Happens;
      ChildrenStay(w, Exit(pid));
      HappeningKeepsValid(w, Exit(pid));
      w := Happens(w, Exit(pid));
    }

    /** Anything may happen before the signal reaches a child that was read in the world `seen`. */
    method Strike(pid: Pid, ghost seen: World) returns (ghost target: Process)
      requires Valid(w) && OnlyOwnChildren() && pid in Children(seen) && Persist(seen, w)
      modifies this
      ensures Valid(w) && OnlyOwnChildren() && Persist(seen, w) && |around| <= |old(around)|
      ensures signals == old(signals) + [(pid, target)]
      ensures pid in seen.processes && target.born == seen.processes[pid].born
    {
      hide Valid, Happens, Empty;
      Elsewhere();
      hide OnlyOwnChildren;
      target := w.processes[pid];
      Kill(pid);
    }

    /** Kill the children that were just read. None of them can have been replaced since: only
        the supervisor reaps them, and it does not while it kills. */
    method KillChildren()
      requires Valid(w) && OnlyOwnChildren()
      modifies this
      ensures Valid(w) && OnlyOwnChildren() && |around| <= |old(around)|
      ensures old(signals) <= signals && Struck(old(w), Children(old(w)), signals[|old(signals)|..])
    {
      var read := Children(w);
      ghost var seen, before := w, signals;
      var rest := read;
      StruckNone(w, read, signals);
      hide Valid, Happens, Empty, Children, OnlyOwnChildren, Struck, Persist;
      while rest != {}
        invariant Valid(w) && OnlyOwnChildren() && |around| <= |old(around)|
        invariant rest <= read == Children(seen) && Persist(seen, w)
        invariant before <= signals && Struck(seen, read - rest, signals[|before|..])
        decreases |rest|
      {
        var pid :| pid in rest;
        ghost var sent := signals[|before|..];
        ghost var target := Strike(pid, seen);
        assert signals[|before|..] == sent + [(pid, target)];
        StruckNext(seen, read - rest, sent, pid, target);
        assert (read - rest) + {pid} == read - (rest - {pid});
        rest := rest - {pid};
      }
      assert read - rest == read;
    }

    /** Kill and reap until no child is left or time is up. */
    method ContainTree(passes: nat) returns (contained: bool)
      requires Valid(w) && OnlyOwnChildren()
      modifies this
      ensures Valid(w) && OnlyOwnChildren()
      ensures contained ==> Empty(w)
    {
      var left := passes;
      while true
        invariant Valid(w) && OnlyOwnChildren()
        decreases left
      {
        var none := ReapChildren();
        if none { return true; }
        KillChildren();
        none := ReapChildren();
        if none { return true; }
        if left == 0 { return false; }
        left := left - 1;
      }
    }
  }

  /** Every child of the one world is still that child in the other. */
  ghost predicate Persist(v: World, w: World)
  {
    && Children(v) <= Children(w)
    && (forall pid :: pid in Children(v) ==> w.processes[pid].born == v.processes[pid].born)
  }

  /** The signals went to these children, once to each, and to the very processes that had the
      pids in this world. */
  ghost predicate Struck(w: World, pids: set<Pid>, sent: seq<(Pid, Process)>)
  {
    && |sent| == |pids|
    && (forall i :: 0 <= i < |sent| ==>
          sent[i].0 in pids && sent[i].0 in w.processes && sent[i].1.born == w.processes[sent[i].0].born)
    && (forall pid :: pid in pids ==> exists i :: 0 <= i < |sent| && sent[i].0 == pid)
  }

  lemma StruckNone(w: World, pids: set<Pid>, signals: seq<(Pid, Process)>)
    ensures Struck(w, pids - pids, signals[|signals|..]) && Persist(w, w)
  {
    assert pids - pids == {};
  }

  lemma StruckNext(w: World, pids: set<Pid>, sent: seq<(Pid, Process)>, pid: Pid, target: Process)
    requires Struck(w, pids, sent) && pid !in pids && pid in w.processes && target.born == w.processes[pid].born
    ensures Struck(w, pids + {pid}, sent + [(pid, target)])
  {
    var all := sent + [(pid, target)];
    forall q | q in pids + {pid} ensures exists i :: 0 <= i < |all| && all[i].0 == q {
      if q == pid {
        assert all[|sent|].0 == pid;
      } else {
        var i :| 0 <= i < |sent| && sent[i].0 == q;
        assert all[i].0 == q;
      }
    }
  }

  lemma ChildrenKnown(w: World)
    ensures forall pid :: pid in Children(w) ==> pid in w.processes
  {
  }

  lemma ReapKeepsValid(w: World, pid: Pid)
    requires Valid(w) && pid in w.processes && !w.processes[pid].running
    ensures Valid(w.(processes := w.processes - {pid}))
  {
    var v := w.(processes := w.processes - {pid});
    forall q | q in v.processes ensures Rooted(v, q) {
      assert Rooted(w, q);
    }
  }

  // ---------------------------------------------------------------- why only children

  /** A descendant that is not a child can be reaped by its own parent and its pid be taken by a
      process outside the tree, so that a pid read a moment ago names a stranger. */
  lemma StaleDescendant(w: World, parent: Pid, child: Pid)
    requires Valid(w) && parent in w.processes && w.processes[parent].running && w.processes[parent].ours
    requires child in w.processes && w.processes[child].ours && w.processes[child].parent == parent
    requires w.processes[child].running && parent != SUPERVISOR
    ensures var v := Happens(Happens(Happens(w, Exit(child)), ReapedElsewhere(child)), Spawn(child));
            && Valid(v) && child in v.processes && !v.processes[child].ours
  {
    assert Rooted(w, child) && Rooted(w, parent);
    var w1 := Happens(w, Exit(child));
    HappeningKeepsValid(w, Exit(child));
    assert w1.processes[child].parent == parent;
    var w2 := Happens(w1, ReapedElsewhere(child));
    HappeningKeepsValid(w1, ReapedElsewhere(child));
    HappeningKeepsValid(w2, Spawn(child));
  }
}
