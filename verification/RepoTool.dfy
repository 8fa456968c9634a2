/** The checkout operation as it runs when nothing interrupts it. */
module RepoTool {
  import opened Checkout
  import opened Wrappers

  /** All the steps that are left, one after the other. */
  function Finish(w: World, task: Task, luck: Luck): (World, Place)
    decreases StepsLeft(task.place)
  {
    if Ended(task.place) then (w, task.place)
    else
      var (after, place) := Work(w, task, luck);
      Finish(after, task.(place := place), luck)
  }

  lemma OneStep(w: World, task: Task, luck: Luck)
    ensures var (after, place) := Work(w, task, luck);
            Finish(w, task, luck)
            == if Ended(task.place) then (w, task.place) else Finish(after, task.(place := place), luck)
  {
  }

  /** The files of one repository: its mirror, the mirror being cloned, and its checkouts. */
  class Files {
    var mirror: Clone
    var tmp: Clone
    var sites: map<Target, Site>

    function View(): World
      reads this
    {
      World(mirror, tmp, sites, FORCED, {})
    }

    /** What is left to do from this place on. */
    ghost function FinishFrom(target: Target, place: Place, luck: Luck): (World, Place)
      reads this
    {
      Finish(View(), Task(target, place), luck)
    }

    constructor ()
      ensures View() == INITIAL.world
    {
      mirror, tmp, sites := NoClone, NoClone, map[];
    }

    /** Clones the repository into a directory of its own, which then becomes the mirror. */
    method CloneMirror(target: Target, luck: Luck) returns (failure: Option<Failure>)
      requires mirror.NoClone?
      modifies this`mirror, this`tmp
      ensures old(FinishFrom(target, ClearingTmp, luck))
              == match failure
                 case None => FinishFrom(target, Synced, luck)
                 case Some(why) => (View(), Failed(why))
    {
      OneStep(View(), Task(target, ClearingTmp), luck);
      tmp := NoClone;
      OneStep(View(), Task(target, StartingClone), luck);
      tmp := PartialClone;
      OneStep(View(), Task(target, RunningClone), luck);
      if luck.origin.None? {
        OneStep(View(), Task(target, Failed(CloneFailed)), luck);
        return Some(CloneFailed);
      }
      tmp := FullClone(luck.origin.value);
      OneStep(View(), Task(target, Renaming), luck);
      mirror, tmp := tmp, NoClone;
      return None;
    }

    /** Clones the repository on first use and fetches it when the last fetch is too old; a failed fetch is no failure. */
    method SyncMirror(target: Target, luck: Luck) returns (failure: Option<Failure>)
      modifies this`mirror, this`tmp
      ensures old(FinishFrom(target, Arriving, luck))
              == match failure
                 case None => FinishFrom(target, Synced, luck)
                 case Some(why) => (View(), Failed(why))
    {
      OneStep(View(), Task(target, Arriving), luck);
      OneStep(View(), Task(target, Looking), luck);
      failure := None;
      if mirror.NoClone? {
        failure := CloneMirror(target, luck);
      } else if luck.fetchIsDue {
        OneStep(View(), Task(target, Fetching), luck);
        if luck.origin.Some? && mirror.FullClone? {
          mirror := FullClone(luck.origin.value);
        }
      }
    }

    /** Removes a directory with all that is in it. */
    method RemoveDirectory(target: Target, commit: string, luck: Luck)
      modifies this`sites
      ensures old(FinishFrom(target, Removing(commit), luck)) == FinishFrom(target, Pruning(commit), luck)
    {
      OneStep(View(), Task(target, Removing(commit)), luck);
      sites := sites[target := SiteOf(View(), target).(dir := Part)];
      OneStep(View(), Task(target, RemovingRest(commit)), luck);
      sites := sites[target := SiteOf(View(), target).(dir := Gone)];
    }

    /** Removes what an interrupted checkout left behind, the marker first. */
    method RemoveLeftovers(target: Target, commit: string, luck: Luck)
      modifies this`sites
      ensures old(FinishFrom(target, DroppingMarker(commit), luck)) == FinishFrom(target, StartingAdd(commit), luck)
    {
      OneStep(View(), Task(target, DroppingMarker(commit)), luck);
      sites := sites[target := SiteOf(View(), target).(marker := None)];
      if !SiteOf(View(), target).dir.Gone? {
        RemoveDirectory(target, commit, luck);
      }
      OneStep(View(), Task(target, Pruning(commit)), luck);
      sites := map other | other in sites :: Pruned(sites[other]);
    }

    /** Truncates the marker, then writes it. */
    method WriteMarker(target: Target, commit: string, luck: Luck)
      modifies this`sites
      ensures old(FinishFrom(target, CreatingMarker(commit), luck)) == (View(), Finished(Short(commit)))
    {
      OneStep(View(), Task(target, CreatingMarker(commit)), luck);
      sites := sites[target := SiteOf(View(), target).(marker := Some(""))];
      OneStep(View(), Task(target, WritingMarker(commit)), luck);
      sites := sites[target := SiteOf(View(), target).(marker := Some(commit))];
      OneStep(View(), Task(target, Finished(Short(commit))), luck);
    }

    /** Fills the directory, then writes the marker. */
    method AddWorktree(target: Target, commit: string, luck: Luck) returns (result: Place)
      modifies this`sites
      ensures old(FinishFrom(target, StartingAdd(commit), luck)) == (View(), result)
    {
      OneStep(View(), Task(target, StartingAdd(commit)), luck);
      if !GitAdds(SiteOf(View(), target), FORCED) {
        OneStep(View(), Task(target, Failed(Blocked)), luck);
        return Failed(Blocked);
      }
      sites := sites[target := SiteOf(View(), target).(dir := Part, entry := Locked)];
      OneStep(View(), Task(target, RunningAdd(commit)), luck);
      if !luck.blobs {
        sites := sites[target := Unfilled(SiteOf(View(), target), luck.cleansUp)];
        OneStep(View(), Task(target, Failed(AddFailed)), luck);
        return Failed(AddFailed);
      }
      sites := sites[target := SiteOf(View(), target).(dir := Whole(commit), entry := Settled)];
      WriteMarker(target, commit, luck);
      result := Finished(Short(commit));
    }

    method CheckOut(target: Target, luck: Luck) returns (result: Place)
      modifies this
      ensures (View(), result) == old(FinishFrom(target, Arriving, luck))
    {
      var failure := SyncMirror(target, luck);
      if failure.Some? {
        return Failed(failure.value);
      }
      OneStep(View(), Task(target, Synced), luck);
      OneStep(View(), Task(target, Checking), luck);
      var site := SiteOf(View(), target);
      if !site.dir.Gone? && site.marker.Some? {
        result := Finished(Short(site.marker.value));
        OneStep(View(), Task(target, result), luck);
        return;
      }
      OneStep(View(), Task(target, Resolving), luck);
      if !mirror.FullClone? || target.ref !in mirror.refs {
        result := Failed(if mirror.FullClone? then UnknownRef else Blocked);
        OneStep(View(), Task(target, result), luck);
        return;
      }
      var commit := mirror.refs[target.ref];
      RemoveLeftovers(target, commit, luck);
      result := AddWorktree(target, commit, luck);
    }
  }

  // ---- What it comes to

  function Synchronised(mirror: Clone, luck: Luck): Clone {
    if luck.origin.Some? && (mirror.NoClone? || luck.fetchIsDue) then FullClone(luck.origin.value) else mirror
  }

  lemma CloningComesTo(w: World, target: Target, luck: Luck)
    requires w.mirror.NoClone?
    ensures Finish(w, Task(target, ClearingTmp), luck)
            == match luck.origin
               case Some(refs) => Finish(w.(mirror := FullClone(refs), tmp := NoClone), Task(target, Synced), luck)
               case None => (w.(tmp := PartialClone), Failed(CloneFailed))
  {
    OneStep(w, Task(target, ClearingTmp), luck);
    OneStep(w.(tmp := NoClone), Task(target, StartingClone), luck);
    OneStep(w.(tmp := PartialClone), Task(target, RunningClone), luck);
    match luck.origin
    case Some(refs) => OneStep(w.(tmp := FullClone(refs)), Task(target, Renaming), luck);
    case None => OneStep(w.(tmp := PartialClone), Task(target, Failed(CloneFailed)), luck);
  }

  lemma SyncComesTo(w: World, target: Target, luck: Luck)
    requires !w.mirror.PartialClone?
    ensures var mirror := Synchronised(w.mirror, luck);
            var (after, place) := Finish(w, Task(target, Arriving), luck);
            if mirror.FullClone? then
              exists tmp :: (after, place) == Finish(w.(mirror := mirror, tmp := tmp), Task(target, Synced), luck)
            else
              after == w.(tmp := PartialClone) && place == Failed(CloneFailed)
  {
    OneStep(w, Task(target, Arriving), luck);
    OneStep(w, Task(target, Looking), luck);
    if w.mirror.NoClone? {
      CloningComesTo(w, target, luck);
    } else if luck.fetchIsDue {
      OneStep(w, Task(target, Fetching), luck);
    }
    var mirror := Synchronised(w.mirror, luck);
    var tmp := if w.mirror.NoClone? then NoClone else w.tmp;
    assert mirror.FullClone? ==>
        Finish(w, Task(target, Arriving), luck) == Finish(w.(mirror := mirror, tmp := tmp), Task(target, Synced), luck);
  }

  /** What this checkout leaves of its target, once it has begun to make it anew. */
  function Made(commit: string, luck: Luck): Site {
    if luck.blobs then Site(Whole(commit), Some(commit), Settled) else Unfilled(Site(Gone, None, NoEntry), luck.cleansUp)
  }

  function MadePlace(commit: string, luck: Luck): Place {
    if luck.blobs then Finished(Short(commit)) else Failed(AddFailed)
  }

  /** Other places keep their directories and markers, and this one is made anew. */
  lemma AddingComesTo(w: World, target: Target, commit: string, luck: Luck)
    requires w.forced >= 2
    ensures var (after, place) := Finish(w, Task(target, DroppingMarker(commit)), luck);
            && place == MadePlace(commit, luck)
            && after.mirror == w.mirror
            && SiteOf(after, target) == Made(commit, luck)
            && forall other :: other != target ==> SiteOf(after, other) == Pruned(SiteOf(w, other))
  {
    var bare := SiteOf(w, target).(dir := Gone, marker := None);
    RemovingComesTo(w, target, commit, luck);
    OneStep(Put(w, target, bare), Task(target, Pruning(commit)), luck);
    MadeAnew(w, target, bare, Made(commit, luck));
    FillingComesTo(AllPruned(Put(w, target, bare)), target, commit, luck);
  }

  function AllPruned(w: World): World {
    w.(sites := map target | target in w.sites :: Pruned(w.sites[target]))
  }

  lemma MadeAnew(w: World, target: Target, bare: Site, made: Site)
    ensures var pruned := AllPruned(Put(w, target, bare));
            && SiteOf(pruned, target) == Pruned(bare)
            && SiteOf(Put(pruned, target, made), target) == made
            && forall other :: other != target ==> SiteOf(Put(pruned, target, made), other) == Pruned(SiteOf(w, other))
  {
  }

  lemma RemovingComesTo(w: World, target: Target, commit: string, luck: Luck)
    ensures var bare := Put(w, target, SiteOf(w, target).(dir := Gone, marker := None));
            Finish(w, Task(target, DroppingMarker(commit)), luck) == Finish(bare, Task(target, Pruning(commit)), luck)
  {
    OneStep(w, Task(target, DroppingMarker(commit)), luck);
    var site := SiteOf(w, target);
    if !site.dir.Gone? {
      var unmarked, partial := site.(marker := None), Site(Part, None, site.entry);
      OneStep(Put(w, target, unmarked), Task(target, Removing(commit)), luck);
      PutTwice(w, target, unmarked, partial);
      OneStep(Put(w, target, partial), Task(target, RemovingRest(commit)), luck);
      PutTwice(w, target, partial, site.(dir := Gone, marker := None));
    }
  }

  lemma PutTwice(w: World, target: Target, first: Site, second: Site)
    ensures SiteOf(Put(w, target, first), target) == first
    ensures Put(Put(w, target, first), target, second) == Put(w, target, second)
  {
  }

  lemma FillingComesTo(w: World, target: Target, commit: string, luck: Luck)
    requires w.forced >= 2 && SiteOf(w, target).dir.Gone? && SiteOf(w, target).marker.None?
    ensures Finish(w, Task(target, StartingAdd(commit)), luck) == (Put(w, target, Made(commit, luck)), MadePlace(commit, luck))
  {
    var started := Site(Part, None, Locked);
    OneStep(w, Task(target, StartingAdd(commit)), luck);
    OneStep(Put(w, target, started), Task(target, RunningAdd(commit)), luck);
    PutTwice(w, target, started, Unfilled(started, luck.cleansUp));
    if luck.blobs {
      PutTwice(w, target, started, Site(Whole(commit), None, Settled));
      MarkingComesTo(w, target, commit, luck);
    } else {
      OneStep(Put(w, target, Made(commit, luck)), Task(target, Failed(AddFailed)), luck);
    }
  }

  lemma MarkingComesTo(w: World, target: Target, commit: string, luck: Luck)
    ensures Finish(Put(w, target, Site(Whole(commit), None, Settled)), Task(target, CreatingMarker(commit)), luck)
            == (Put(w, target, Site(Whole(commit), Some(commit), Settled)), Finished(Short(commit)))
  {
    var filled, marked := Site(Whole(commit), None, Settled), Site(Whole(commit), Some(""), Settled);
    var done := Site(Whole(commit), Some(commit), Settled);
    OneStep(Put(w, target, filled), Task(target, CreatingMarker(commit)), luck);
    PutTwice(w, target, filled, marked);
    OneStep(Put(w, target, marked), Task(target, WritingMarker(commit)), luck);
    PutTwice(w, target, marked, done);
    OneStep(Put(w, target, done), Task(target, Finished(Short(commit))), luck);
  }

  /** What an uninterrupted checkout comes to, from whatever was left behind. It succeeds exactly if there is a mirror, old or
      new, and either directory and marker are already there or the mirror has the ref and git gets the blobs. In the first
      case they are left as they are, so that the worktree is whole exactly unless a deletion that was interrupted took some of
      its files and not yet its marker. Otherwise the target is made anew, and git may fail to fill it. No other checkout
      loses its directory or marker. */
  lemma CheckOutSucceedsExactly(w: World, target: Target, luck: Luck)
    requires !w.mirror.PartialClone? && w.forced >= 2
    ensures var (after, place) := Finish(w, Task(target, Arriving), luck);
            var mirror := Synchronised(w.mirror, luck);
            var before := SiteOf(w, target);
            && after.mirror == mirror
            && (place.Finished? <==>
                  mirror.FullClone? && (Complete(before) || (target.ref in mirror.refs && luck.blobs)))
            && (place.Finished? ==>
                  (SiteOf(after, target).dir.Whole? <==> !(before.dir.Part? && before.marker.Some?)))
            && SiteOf(after, target) ==
                 (if Complete(before) || !mirror.FullClone? || target.ref !in mirror.refs then before
                  else Made(mirror.refs[target.ref], luck))
            && forall other :: other != target ==> SiteOf(after, other) in {SiteOf(w, other), Pruned(SiteOf(w, other))}
  {
    CheckOutComesTo(w, target, luck);
  }

  /** How an uninterrupted checkout ends. */
  function EndOf(mirror: Clone, before: Site, ref: string, luck: Luck): Place {
    if !mirror.FullClone? then Failed(CloneFailed)
    else if Complete(before) then Finished(Short(before.marker.value))
    else if ref !in mirror.refs then Failed(UnknownRef)
    else MadePlace(mirror.refs[ref], luck)
  }

  lemma CheckOutComesTo(w: World, target: Target, luck: Luck)
    requires !w.mirror.PartialClone? && w.forced >= 2
    ensures var (after, place) := Finish(w, Task(target, Arriving), luck);
            var mirror := Synchronised(w.mirror, luck);
            var before := SiteOf(w, target);
            && after.mirror == mirror
            && place == EndOf(mirror, before, target.ref, luck)
            && SiteOf(after, target) ==
                 (if Complete(before) || !mirror.FullClone? || target.ref !in mirror.refs then before
                  else Made(mirror.refs[target.ref], luck))
            && forall other :: other != target ==> SiteOf(after, other) in {SiteOf(w, other), Pruned(SiteOf(w, other))}
  {
    SyncComesTo(w, target, luck);
    var mirror := Synchronised(w.mirror, luck);
    if mirror.FullClone? {
      var tmp :| Finish(w, Task(target, Arriving), luck) == Finish(w.(mirror := mirror, tmp := tmp), Task(target, Synced), luck);
      SyncedComesTo(w.(mirror := mirror, tmp := tmp), target, luck);
    }
  }

  lemma SyncedComesTo(w: World, target: Target, luck: Luck)
    requires w.mirror.FullClone? && w.forced >= 2
    ensures var (after, place) := Finish(w, Task(target, Synced), luck);
            var before := SiteOf(w, target);
            && after.mirror == w.mirror
            && place == (if Complete(before) then Finished(Short(before.marker.value))
                         else if target.ref !in w.mirror.refs then Failed(UnknownRef)
                         else MadePlace(w.mirror.refs[target.ref], luck))
            && SiteOf(after, target) == (if Complete(before) || target.ref !in w.mirror.refs then before
                                         else Made(w.mirror.refs[target.ref], luck))
            && forall other :: other != target ==> SiteOf(after, other) in {SiteOf(w, other), Pruned(SiteOf(w, other))}
  {
    CheckingComesTo(w, target, luck);
    if !Complete(SiteOf(w, target)) && target.ref in w.mirror.refs {
      AddingComesTo(w, target, w.mirror.refs[target.ref], luck);
    }
  }

  lemma CheckingComesTo(w: World, target: Target, luck: Luck)
    requires w.mirror.FullClone?
    ensures Finish(w, Task(target, Synced), luck)
            == if Complete(SiteOf(w, target)) then (w, Finished(Short(SiteOf(w, target).marker.value)))
               else if target.ref !in w.mirror.refs then (w, Failed(UnknownRef))
               else Finish(w, Task(target, DroppingMarker(w.mirror.refs[target.ref])), luck)
  {
    OneStep(w, Task(target, Synced), luck);
    OneStep(w, Task(target, Checking), luck);
    if Complete(SiteOf(w, target)) {
      OneStep(w, Task(target, Finished(Short(SiteOf(w, target).marker.value))), luck);
    } else {
      OneStep(w, Task(target, Resolving), luck);
      OneStep(w, Task(target, Failed(UnknownRef)), luck);
    }
  }

  /** The operation is one of the runs of the concurrent model. */
  lemma {:induction false} FinishIsARun(s: State, id: nat, luck: Luck, n: nat)
    requires id in s.tasks && Alone(s, id) && n >= StepsLeft(s.tasks[id].place)
    ensures var after := Run(s, seq(n, _ => Go(id, luck)));
            && id in after.tasks
            && (after.world, after.tasks[id].place) == Finish(s.world, s.tasks[id], luck)
    decreases n
  {
    var go := Go(id, luck);
    var events := seq(n, _ => go);
    if n > 0 {
      var rest := seq(n - 1, _ => go);
      assert events == [go] + rest;
      RunInParts(s, [go], rest);
      assert DropLast([go]) == [];
      var next := Next(s, go);
      assert Run(s, [go]) == next;
      if Enabled(s, id) {
        EnabledStepCounts(s, id, luck);
      }
      FinishIsARun(next, id, luck, n - 1);
    }
  }
}
