/**
 * The engine's subsystem registry, Generals/Code/GameEngine/Source/Common/
 * System/SubsystemInterface.cpp.
 *
 * A subsystem is identified by its address, a `nat`. The calls the list makes
 * into a subsystem (its virtual `setName`, `init`, `postProcessLoad`, `reset`
 * and its deletion) and the INI loads of `initSubsystem` are not modelled as
 * code; each is recorded as an `Event` appended to a trace, so the order in
 * which the list drives its subsystems is what the contracts speak about.
 */
module Subsystems {
  import opened Wrappers

  /** The per-subsystem operations the list calls on all its members. */
  datatype Hook = PostProcessLoad | Reset | Delete

  /** One call the list makes, in the order made. */
  datatype Event =
    | Named(sys: nat, name: string)
    | Initialised(sys: nat)
    | IniLoaded(path: string)
    | IniDirectoryLoaded(path: string)
    | Called(hook: Hook, sys: nat)

  /** One `hook` call per element of `xs`, in the order of `xs`. */
  function Calls(hook: Hook, xs: seq<nat>): (r: seq<Event>)
    ensures |r| == |xs|
    ensures forall i :: 0 <= i < |xs| ==> r[i] == Called(hook, xs[i])
  {
    if xs == [] then [] else [Called(hook, xs[0])] + Calls(hook, xs[1..])
  }

  /** `xs` walked with a reverse iterator. */
  function Reverse(xs: seq<nat>): (r: seq<nat>)
    ensures |r| == |xs|
    ensures forall i :: 0 <= i < |xs| ==> r[i] == xs[|xs| - 1 - i]
  {
    if xs == [] then [] else Reverse(xs[1..]) + [xs[0]]
  }

  /** How many times `sys` is deleted in `events`. */
  function Deletions(events: seq<Event>, sys: nat): nat
  {
    if events == [] then 0
    else (if events[0] == Called(Delete, sys) then 1 else 0) + Deletions(events[1..], sys)
  }

  lemma {:induction false} CallsAppend(hook: Hook, a: seq<nat>, b: seq<nat>)
    ensures Calls(hook, a + b) == Calls(hook, a) + Calls(hook, b)
  {
    if a != [] {
      assert (a + b)[1..] == a[1..] + b;
      CallsAppend(hook, a[1..], b);
    }
  }

  lemma {:induction false} DeletionsAppend(a: seq<Event>, b: seq<Event>, sys: nat)
    ensures Deletions(a + b, sys) == Deletions(a, sys) + Deletions(b, sys)
  {
    if a == [] {
      assert a + b == b;
    } else {
      assert (a + b)[0] == a[0] && (a + b)[1..] == a[1..] + b;
      DeletionsAppend(a[1..], b, sys);
    }
  }

  /** Reversing twice gives the original order back. */
  lemma ReverseReverse(xs: seq<nat>)
    ensures Reverse(Reverse(xs)) == xs
  {
  }

  /**
   * `resetAll` visits in the opposite order to `postProcessLoadAll`: the i-th
   * reset is of the subsystem whose post-load call is i-th from the end.
   */
  lemma ResetMirrorsPostProcess(xs: seq<nat>)
    ensures var post := Calls(PostProcessLoad, xs);
            var reset := Calls(Reset, Reverse(xs));
            |reset| == |post| &&
            forall i :: 0 <= i < |xs| ==> reset[i].sys == post[|xs| - 1 - i].sys
  {
  }

  /**
   * A shutdown deletes each subsystem as many times as it was enrolled: once
   * for a subsystem initialised once, never for one that was not enrolled.
   */
  lemma {:induction false} ShutdownDeletesEachOnce(xs: seq<nat>, sys: nat)
    ensures Deletions(Calls(Delete, Reverse(xs)), sys) == multiset(xs)[sys]
  {
    if xs != [] {
      ShutdownDeletesEachOnce(xs[1..], sys);
      CallsAppend(Delete, Reverse(xs[1..]), [xs[0]]);
      DeletionsAppend(Calls(Delete, Reverse(xs[1..])), Calls(Delete, [xs[0]]), sys);
      assert xs == [xs[0]] + xs[1..];
      assert multiset(xs) == multiset([xs[0]]) + multiset(xs[1..]);
    }
  }

  /** `SubsystemInterfaceList`: `m_subsystems` and the calls made so far. */
  class SubsystemInterfaceList {
    /** `m_subsystems`, in insertion order. */
    var subsystems: seq<nat>
    /** Every call made into a subsystem or the INI loader, oldest first. */
    var log: seq<Event>

    constructor()
      ensures subsystems == [] && log == []
    {
      subsystems := [];
      log := [];
    }

    /**
     * `addSubsystem`, what the `SubsystemInterface` constructor calls: it does
     * not touch `m_subsystems`, so constructing a subsystem does not enrol it.
     */
    method AddSubsystem(sys: nat)
      ensures subsystems == old(subsystems) && log == old(log)
    {
    }

    /** `removeSubsystem`, what the `SubsystemInterface` destructor calls: also a no-op. */
    method RemoveSubsystem(sys: nat)
      ensures subsystems == old(subsystems) && log == old(log)
    {
    }

    /**
     * `initSubsystem`: name the subsystem, `init` it, load the INI files and
     * directory that are given, then enrol it at the end of the list.
     */
    method InitSubsystem(sys: nat, path1: Option<string>, path2: Option<string>, dirpath: Option<string>, name: string)
      modifies this
      ensures subsystems == old(subsystems) + [sys]
      ensures log == old(log) + [Named(sys, name), Initialised(sys)] + IniLoads(path1, path2, dirpath)
    {
      log := log + [Named(sys, name), Initialised(sys)];
      if path1.Some? {
        log := log + [IniLoaded(path1.value)];
      }
      if path2.Some? {
        log := log + [IniLoaded(path2.value)];
      }
      if dirpath.Some? {
        log := log + [IniDirectoryLoaded(dirpath.value)];
      }
      subsystems := subsystems + [sys];
    }

    /** `postProcessLoadAll`: `postProcessLoad` on every subsystem, first enrolled first. */
    method PostProcessLoadAll()
      modifies this
      ensures subsystems == old(subsystems)
      ensures log == old(log) + Calls(PostProcessLoad, subsystems)
    {
      var i := 0;
      while i < |subsystems|
        invariant 0 <= i <= |subsystems|
        invariant subsystems == old(subsystems)
        invariant log == old(log) + Calls(PostProcessLoad, subsystems[..i])
      {
        CallsAppend(PostProcessLoad, subsystems[..i], [subsystems[i]]);
        assert subsystems[..i + 1] == subsystems[..i] + [subsystems[i]];
        log := log + [Called(PostProcessLoad, subsystems[i])];
        i := i + 1;
      }
      assert subsystems[..i] == subsystems;
    }

    /** `resetAll`: `reset` on every subsystem, last enrolled first. */
    method ResetAll()
      modifies this
      ensures subsystems == old(subsystems)
      ensures log == old(log) + Calls(Reset, Reverse(subsystems))
    {
      VisitBackwards(Reset);
    }

    /**
     * `shutdownAll`: delete every subsystem, last enrolled first, so that a
     * subsystem goes before those it was built on; then clear the list.
     */
    method ShutdownAll()
      modifies this
      ensures subsystems == []
      ensures log == old(log) + Calls(Delete, Reverse(old(subsystems)))
    {
      VisitBackwards(Delete);
      subsystems := [];
    }

    /**
     * The destructor of the list: it reports (in debug builds) whether the list
     * was still non-empty, then shuts everything down. `wasEmpty` is the
     * asserted condition.
     */
    method Destroy() returns (wasEmpty: bool)
      modifies this
      ensures wasEmpty == (old(subsystems) == [])
      ensures subsystems == []
      ensures log == old(log) + Calls(Delete, Reverse(old(subsystems)))
    {
      wasEmpty := subsystems == [];
      ShutdownAll();
    }

    /**
     * An explicit `shutdownAll` followed by the destructor, whose own
     * `shutdownAll` then sees the cleared list: the destructor's emptiness
     * assertion holds, and each subsystem is deleted exactly as many times as
     * it was enrolled, so an enrolled-once subsystem is deleted once.
     */
    method ShutdownThenDestroy() returns (wasEmpty: bool)
      modifies this
      ensures wasEmpty
      ensures subsystems == []
      ensures |old(log)| <= |log| && log[..|old(log)|] == old(log)
      ensures forall e | e in log[|old(log)|..] :: e.Called? && e.hook == Delete
      ensures forall sys :: Deletions(log[|old(log)|..], sys) == multiset(old(subsystems))[sys]
    {
      ghost var xs := subsystems;
      ShutdownAll();
      wasEmpty := Destroy();
      assert log[|old(log)|..] == Calls(Delete, Reverse(xs)) + Calls(Delete, Reverse([]));
      forall sys
        ensures Deletions(log[|old(log)|..], sys) == multiset(xs)[sys]
      {
        ShutdownDeletesEachOnce(xs, sys);
        DeletionsAppend(Calls(Delete, Reverse(xs)), Calls(Delete, Reverse([])), sys);
      }
    }

    /** The reverse-iterator loop shared by `resetAll` and `shutdownAll`. */
    method VisitBackwards(hook: Hook)
      modifies this
      ensures subsystems == old(subsystems)
      ensures log == old(log) + Calls(hook, Reverse(subsystems))
    {
      var i := |subsystems|;
      while i > 0
        invariant 0 <= i <= |subsystems|
        invariant subsystems == old(subsystems)
        invariant log == old(log) + Calls(hook, Reverse(subsystems[i..]))
      {
        assert subsystems[i - 1..][1..] == subsystems[i..];
        CallsAppend(hook, Reverse(subsystems[i..]), [subsystems[i - 1]]);
        log := log + [Called(hook, subsystems[i - 1])];
        i := i - 1;
      }
    }
  }

  /** The loads `initSubsystem` makes, in its order: `path1`, `path2`, then `dirpath`. */
  function IniLoads(path1: Option<string>, path2: Option<string>, dirpath: Option<string>): (r: seq<Event>)
    ensures |r| == (if path1.Some? then 1 else 0) + (if path2.Some? then 1 else 0) + (if dirpath.Some? then 1 else 0)
    ensures path1.Some? ==> r[0] == IniLoaded(path1.value)
    ensures (forall e | e in r :: e.IniLoaded? || e.IniDirectoryLoaded?)
    ensures dirpath.Some? <==> (|r| > 0 && r[|r| - 1].IniDirectoryLoaded?)
  {
    (if path1.Some? then [IniLoaded(path1.value)] else [])
    + (if path2.Some? then [IniLoaded(path2.value)] else [])
    + (if dirpath.Some? then [IniDirectoryLoaded(dirpath.value)] else [])
  }
}
