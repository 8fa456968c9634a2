/** Concrete runs of checkouts from a fresh data directory: what makes git's double force necessary, and what an interrupted
    checkout or deletion can make later ones say. */
module CheckoutRuns {
  import opened Checkout
  import opened RepoTool
  import opened Wrappers

  /** At most `n` steps of one checkout. */
  function Walk(w: World, task: Task, luck: Luck, n: nat): (World, Place)
    decreases n
  {
    if n == 0 || Ended(task.place) then (w, task.place)
    else
      var (after, place) := Work(w, task, luck);
      Walk(after, task.(place := place), luck, n - 1)
  }

  function Gos(id: nat, luck: Luck, n: nat): seq<Event> {
    seq(n, _ => Go(id, luck))
  }

  lemma {:induction false} WalkIsARun(s: State, id: nat, luck: Luck, n: nat)
    requires id in s.tasks && Alone(s, id)
    ensures var (world, place) := Walk(s.world, s.tasks[id], luck, n);
            Run(s, Gos(id, luck, n)) == State(world, s.tasks[id := s.tasks[id].(place := place)])
    decreases n
  {
    var go := Go(id, luck);
    if n > 0 {
      assert Gos(id, luck, n) == [go] + Gos(id, luck, n - 1);
      RunInParts(s, [go], Gos(id, luck, n - 1));
      assert DropLast([go]) == [] && Run(s, [go]) == Next(s, go);
      WalkIsARun(Next(s, go), id, luck, n - 1);
      if Ended(s.tasks[id].place) {
        assert s.tasks[id := s.tasks[id]] == s.tasks;
      }
    } else {
      assert Gos(id, luck, 0) == [] && s.tasks[id := s.tasks[id]] == s.tasks;
    }
  }

  lemma {:induction false} WalkInParts(w: World, task: Task, luck: Luck, n: nat, m: nat)
    ensures var (mid, place) := Walk(w, task, luck, n);
            Walk(w, task, luck, n + m) == Walk(mid, task.(place := place), luck, m)
    decreases n
  {
    if n > 0 && !Ended(task.place) {
      var (after, place) := Work(w, task, luck);
      WalkInParts(after, task.(place := place), luck, n - 1, m);
    }
  }

  lemma WalkOn(w: World, task: Task, luck: Luck, n: nat)
    requires n > 0 && !Ended(task.place)
    ensures var (after, place) := Work(w, task, luck);
            Walk(w, task, luck, n) == Walk(after, task.(place := place), luck, n - 1)
  {
  }

  // ---- The first checkout

  function Fresh(forced: nat): World {
    Initial(forced).world
  }

  /** The world once the mirror is there and this is what there is of the only checkout. */
  function With(refs: Refs, target: Target, site: Site, forced: nat): World {
    World(FullClone(refs), NoClone, map[target := site], forced, {})
  }

  lemma FirstClone(target: Target, refs: Refs, luck: Luck, forced: nat)
    requires luck.origin == Some(refs)
    ensures Walk(Fresh(forced), Task(target, Arriving), luck, 6) == (World(FullClone(refs), NoClone, map[], forced, {}), Synced)
  {
    var w := Fresh(forced);
    var cloning, cloned := w.(tmp := PartialClone), w.(tmp := FullClone(refs));
    WalkOn(w, Task(target, Arriving), luck, 6);
    WalkOn(w, Task(target, Looking), luck, 5);
    WalkOn(w, Task(target, ClearingTmp), luck, 4);
    WalkOn(w, Task(target, StartingClone), luck, 3);
    WalkOn(cloning, Task(target, RunningClone), luck, 2);
    WalkOn(cloned, Task(target, Renaming), luck, 1);
  }

  lemma FirstLook(target: Target, refs: Refs, luck: Luck, forced: nat)
    requires target.ref in refs
    ensures var commit := refs[target.ref];
            Walk(World(FullClone(refs), NoClone, map[], forced, {}), Task(target, Synced), luck, 5)
            == (With(refs, target, Site(Gone, None, NoEntry), forced), StartingAdd(commit))
  {
    var w, commit := World(FullClone(refs), NoClone, map[], forced, {}), refs[target.ref];
    var bare := With(refs, target, Site(Gone, None, NoEntry), forced);
    WalkOn(w, Task(target, Synced), luck, 5);
    WalkOn(w, Task(target, Checking), luck, 4);
    WalkOn(w, Task(target, Resolving), luck, 3);
    WalkOn(w, Task(target, DroppingMarker(commit)), luck, 2);
    assert Put(w, target, Site(Gone, None, NoEntry)) == bare;
    WalkOn(bare, Task(target, Pruning(commit)), luck, 1);
    assert AllPruned(bare) == bare;
  }

  /** Step by step: 12 steps bring the first checkout into the middle of `worktree add`, two more into the middle of
      writing its marker, and the 15th finishes it. */
  lemma FirstCheckout(target: Target, refs: Refs, luck: Luck, forced: nat)
    requires luck.origin == Some(refs) && luck.blobs && target.ref in refs
    ensures var commit := refs[target.ref];
            && Walk(Fresh(forced), Task(target, Arriving), luck, 12)
               == (With(refs, target, Site(Part, None, Locked), forced), RunningAdd(commit))
            && Walk(Fresh(forced), Task(target, Arriving), luck, 14)
               == (With(refs, target, Site(Whole(commit), Some(""), Settled), forced), WritingMarker(commit))
            && Walk(Fresh(forced), Task(target, Arriving), luck, 15)
               == (With(refs, target, Site(Whole(commit), Some(commit), Settled), forced), Finished(Short(commit)))
  {
    var start, commit := Task(target, Arriving), refs[target.ref];
    FirstClone(target, refs, luck, forced);
    FirstLook(target, refs, luck, forced);
    WalkInParts(Fresh(forced), start, luck, 6, 5);
    FirstAdd(target, refs, luck, forced);
    WalkInParts(Fresh(forced), start, luck, 11, 1);
    WalkInParts(Fresh(forced), start, luck, 11, 3);
    WalkInParts(Fresh(forced), start, luck, 11, 4);
  }

  lemma FirstAdd(target: Target, refs: Refs, luck: Luck, forced: nat)
    requires luck.blobs && target.ref in refs
    ensures var commit := refs[target.ref];
            var start := Task(target, StartingAdd(commit));
            var bare := With(refs, target, Site(Gone, None, NoEntry), forced);
            && Walk(bare, start, luck, 1) == (With(refs, target, Site(Part, None, Locked), forced), RunningAdd(commit))
            && Walk(bare, start, luck, 3)
               == (With(refs, target, Site(Whole(commit), Some(""), Settled), forced), WritingMarker(commit))
            && Walk(bare, start, luck, 4)
               == (With(refs, target, Site(Whole(commit), Some(commit), Settled), forced), Finished(Short(commit)))
  {
    var commit := refs[target.ref];
    var bare, started := Site(Gone, None, NoEntry), Site(Part, None, Locked);
    var filled := Site(Whole(commit), None, Settled);
    var marked := filled.(marker := Some(""));
    OneWrite(refs, target, bare, started, forced);
    OneWrite(refs, target, started, filled, forced);
    OneWrite(refs, target, filled, marked, forced);
    OneWrite(refs, target, marked, filled.(marker := Some(commit)), forced);
    var w1, w2, w3 := With(refs, target, started, forced), With(refs, target, filled, forced), With(refs, target, marked, forced);
    forall n | n in {1, 3, 4}
      ensures Walk(With(refs, target, bare, forced), Task(target, StartingAdd(commit)), luck, n)
              == Walk(w1, Task(target, RunningAdd(commit)), luck, n - 1)
    {
      WalkOn(With(refs, target, bare, forced), Task(target, StartingAdd(commit)), luck, n);
    }
    WalkOn(w1, Task(target, RunningAdd(commit)), luck, 2);
    WalkOn(w2, Task(target, CreatingMarker(commit)), luck, 1);
    WalkOn(w1, Task(target, RunningAdd(commit)), luck, 3);
    WalkOn(w2, Task(target, CreatingMarker(commit)), luck, 2);
    WalkOn(w3, Task(target, WritingMarker(commit)), luck, 1);
  }

  lemma OneWrite(refs: Refs, target: Target, site: Site, after: Site, forced: nat)
    ensures SiteOf(With(refs, target, site, forced), target) == site
    ensures Put(With(refs, target, site, forced), target, after) == With(refs, target, after, forced)
  {
    assert map[target := site][target := after] == map[target := after];
  }

  // ---- Then something happens, and another checkout of the same ref follows

  /** The first checkout makes `n` steps, `event` happens, and a second one is left to run. */
  function Story(target: Target, luck: Luck, n: nat, event: Event): seq<Event> {
    [Come(0, target)] + Gos(0, luck, n) + [event, Come(1, target)] + Gos(1, luck, 17)
  }

  lemma StoryEnds(target: Target, luck: Luck, n: nat, event: Event, forced: nat)
    requires event == Halt(0) || event.Wipe?
    requires var (w, place) := Walk(Fresh(forced), Task(target, Arriving), luck, n);
             event.Wipe? ==> Ended(place)
    ensures var (w, place) := Walk(Fresh(forced), Task(target, Arriving), luck, n);
            var between := Next(State(w, map[0 := Task(target, place)]), event).world;
            var after := Run(Initial(forced), Story(target, luck, n, event));
            && 1 in after.tasks
            && (after.world, after.tasks[1].place) == Finish(between, Task(target, Arriving), luck)
  {
    var (w, place) := Walk(Fresh(forced), Task(target, Arriving), luck, n);
    var begun, both := [Come(0, target)] + Gos(0, luck, n), [event, Come(1, target)];
    StoryBegins(target, luck, n, forced);
    RunInParts(Initial(forced), begun, both);
    var s1 := State(w, map[0 := Task(target, place)]);
    var s2 := Next(Next(s1, event), Come(1, target));
    assert DropLast(both) == [event] && DropLast([event]) == [] && Run(s1, [event]) == Next(s1, event);
    assert Run(s1, both) == s2;
    RunInParts(Initial(forced), begun + both, Gos(1, luck, 17));
    assert Story(target, luck, n, event) == begun + both + Gos(1, luck, 17);
    FinishIsARun(s2, 1, luck, 17);
  }

  lemma StoryBegins(target: Target, luck: Luck, n: nat, forced: nat)
    ensures var (w, place) := Walk(Fresh(forced), Task(target, Arriving), luck, n);
            Run(Initial(forced), [Come(0, target)] + Gos(0, luck, n)) == State(w, map[0 := Task(target, place)])
  {
    var (w, place) := Walk(Fresh(forced), Task(target, Arriving), luck, n);
    var come, s0 := [Come(0, target)], State(Fresh(forced), map[0 := Task(target, Arriving)]);
    assert DropLast(come) == [] && Run(Initial(forced), come) == Next(Initial(forced), Come(0, target)) == s0;
    RunInParts(Initial(forced), come, Gos(0, luck, n));
    WalkIsARun(s0, 0, luck, n);
    assert s0.tasks[0 := s0.tasks[0].(place := place)] == map[0 := Task(target, place)];
  }

  /** Interrupted in the middle of `worktree add`, a checkout leaves a locked entry, which pruning skips. Unless git is forced
      twice, that stops the next checkout of the ref. */
  lemma FewerForcesBlock(target: Target, refs: Refs, luck: Luck, forced: nat)
    requires luck.origin == Some(refs) && luck.blobs && !luck.fetchIsDue && target.ref in refs && forced < 2
    ensures var after := Run(Initial(forced), Story(target, luck, 12, Halt(0)));
            1 in after.tasks && after.tasks[1].place == Failed(Blocked)
  {
    FirstCheckout(target, refs, luck, forced);
    StoryEnds(target, luck, 12, Halt(0), forced);
    var w := With(refs, target, Site(Part, None, Locked), forced);
    SyncDoesNothing(w, target, luck);
    CheckingComesTo(w, target, luck);
    BlockedByLock(w, target, refs[target.ref], luck);
  }

  lemma BlockedByLock(w: World, target: Target, commit: string, luck: Luck)
    requires w.forced < 2 && SiteOf(w, target).entry.Locked?
    ensures Finish(w, Task(target, DroppingMarker(commit)), luck).1 == Failed(Blocked)
  {
    var bare := SiteOf(w, target).(dir := Gone, marker := None);
    RemovingComesTo(w, target, commit, luck);
    OneStep(Put(w, target, bare), Task(target, Pruning(commit)), luck);
    var pruned := AllPruned(Put(w, target, bare));
    MadeAnew(w, target, bare, bare);
    OneStep(pruned, Task(target, StartingAdd(commit)), luck);
    OneStep(pruned, Task(target, Failed(Blocked)), luck);
  }

  /** Nothing that was left behind ever stops a checkout if and only if git is forced at least twice. */
  lemma ForcingTwiceIsNeeded(forced: nat)
    ensures (forall events: seq<Event>, id: nat ::
              var tasks := Run(Initial(forced), events).tasks; id in tasks ==> tasks[id].place != Failed(Blocked))
            <==> forced >= 2
  {
    if forced >= 2 {
      forall events: seq<Event>, id: nat | id in Run(Initial(forced), events).tasks
        ensures Run(Initial(forced), events).tasks[id].place != Failed(Blocked)
      {
        CheckoutsSurviveInterruption(forced, events, Target(0, ""), id);
      }
    } else {
      var target, refs := Target(0, "main"), map["main" := "c0ffee"];
      var luck := Luck(false, Some(refs), true, true);
      FewerForcesBlock(target, refs, luck, forced);
      var events := Story(target, luck, 12, Halt(0));
      assert Run(Initial(forced), events).tasks[1].place == Failed(Blocked);
    }
  }

  /** Interrupted while it writes the marker, a checkout leaves an empty one; the next checkout of the ref then succeeds
      without naming a commit. */
  lemma TornMarkerNamesNoCommit(target: Target, refs: Refs, luck: Luck)
    requires luck.origin == Some(refs) && luck.blobs && !luck.fetchIsDue && target.ref in refs
    ensures var after := Run(INITIAL, Story(target, luck, 14, Halt(0)));
            1 in after.tasks && after.tasks[1].place == Finished("")
  {
    FirstCheckout(target, refs, luck, FORCED);
    StoryEnds(target, luck, 14, Halt(0), FORCED);
    var w := With(refs, target, Site(Whole(refs[target.ref]), Some(""), Settled), FORCED);
    SyncDoesNothing(w, target, luck);
    SyncedComesTo(w, target, luck);
  }

  /** A deletion that took some files of a finished checkout and was then interrupted leaves a marker beside part of a
      worktree; the next checkout of the ref takes it for complete. */
  lemma HalfDeletedIsTaken(target: Target, refs: Refs, luck: Luck)
    requires luck.origin == Some(refs) && luck.blobs && !luck.fetchIsDue && target.ref in refs
    ensures var after := Run(INITIAL, Story(target, luck, 15, Wipe(target, SomeFiles)));
            && 1 in after.tasks
            && after.tasks[1].place == Finished(Short(refs[target.ref]))
            && SiteOf(after.world, target).dir.Part?
  {
    var commit := refs[target.ref];
    FirstCheckout(target, refs, luck, FORCED);
    StoryEnds(target, luck, 15, Wipe(target, SomeFiles), FORCED);
    var done := Site(Whole(commit), Some(commit), Settled);
    OneWrite(refs, target, done, done.(dir := Part), FORCED);
    var w := With(refs, target, done.(dir := Part), FORCED).(wiped := {target.workdir});
    var finished := Task(target, Finished(Short(commit)));
    assert {} + {target.workdir} == {target.workdir};
    assert Next(State(With(refs, target, done, FORCED), map[0 := finished]), Wipe(target, SomeFiles)).world == w;
    SyncDoesNothing(w, target, luck);
    SyncedComesTo(w, target, luck);
  }

  /** A directory that is emptied between filling it and writing its marker is reported as checked out, and is not there. */
  lemma EmptiedWhileFilling(target: Target, refs: Refs, luck: Luck)
    requires luck.origin == Some(refs) && luck.blobs && target.ref in refs
    ensures var after := Run(INITIAL, [Come(0, target)] + Gos(0, luck, 13) + [Empty(target.workdir)] + Gos(0, luck, 2));
            && 0 in after.tasks
            && after.tasks[0].place == Finished(Short(refs[target.ref]))
            && SiteOf(after.world, target).dir.Gone?
  {
    var commit := refs[target.ref];
    var filled := With(refs, target, Site(Whole(commit), None, Settled), FORCED);
    FirstFilled(target, refs, luck);
    StoryBegins(target, luck, 13, FORCED);
    var begun := [Come(0, target)] + Gos(0, luck, 13);
    var s1 := State(filled, map[0 := Task(target, CreatingMarker(commit))]);
    var s2 := Emptied(s1, target.workdir);
    RunInParts(INITIAL, begun, [Empty(target.workdir)]);
    assert DropLast([Empty(target.workdir)]) == [] && Run(s1, [Empty(target.workdir)]) == s2;
    RunInParts(INITIAL, begun + [Empty(target.workdir)], Gos(0, luck, 2));
    WalkIsARun(s2, 0, luck, 2);
    MarkedAnyway(s2.world, target, commit, luck);
  }

  lemma FirstFilled(target: Target, refs: Refs, luck: Luck)
    requires luck.origin == Some(refs) && luck.blobs && target.ref in refs
    ensures Walk(Fresh(FORCED), Task(target, Arriving), luck, 13)
            == (With(refs, target, Site(Whole(refs[target.ref]), None, Settled), FORCED), CreatingMarker(refs[target.ref]))
  {
    FirstCheckout(target, refs, luck, FORCED);
    WalkInParts(Fresh(FORCED), Task(target, Arriving), luck, 12, 1);
    AddRuns(target, refs, luck, refs[target.ref]);
  }

  lemma AddRuns(target: Target, refs: Refs, luck: Luck, commit: string)
    requires luck.blobs
    ensures Walk(With(refs, target, Site(Part, None, Locked), FORCED), Task(target, RunningAdd(commit)), luck, 1)
            == (With(refs, target, Site(Whole(commit), None, Settled), FORCED), CreatingMarker(commit))
  {
    var started := Site(Part, None, Locked);
    OneWrite(refs, target, started, Site(Whole(commit), None, Settled), FORCED);
    WalkOn(With(refs, target, started, FORCED), Task(target, RunningAdd(commit)), luck, 1);
  }

  lemma MarkedAnyway(w: World, target: Target, commit: string, luck: Luck)
    requires SiteOf(w, target).dir.Gone?
    ensures var (after, place) := Walk(w, Task(target, CreatingMarker(commit)), luck, 2);
            place == Finished(Short(commit)) && SiteOf(after, target).dir.Gone?
  {
    var marked := Put(w, target, SiteOf(w, target).(marker := Some("")));
    WalkOn(w, Task(target, CreatingMarker(commit)), luck, 2);
    WalkOn(marked, Task(target, WritingMarker(commit)), luck, 1);
  }

  lemma SyncDoesNothing(w: World, target: Target, luck: Luck)
    requires w.mirror.FullClone? && !luck.fetchIsDue
    ensures Finish(w, Task(target, Arriving), luck) == Finish(w, Task(target, Synced), luck)
  {
    OneStep(w, Task(target, Arriving), luck);
    OneStep(w, Task(target, Looking), luck);
  }
}
