/** Concurrent checkouts of one repository that can be interrupted after any step. Different repositories and refs have
    different directories, markers and mirrors (module RefNames), so one repository can be looked at alone. */
module Checkout {
  import opened Wrappers

  /** What the refs of a clone point at. */
  type Refs = map<string, string>

  datatype Clone = NoClone | PartialClone | FullClone(refs: Refs)

  /** A checkout directory: part of a worktree while git fills it or while it is being removed. */
  datatype Worktree = Gone | Part | Whole(commit: string)

  /** What the mirror has on file about a worktree; locked while git is still setting it up. */
  datatype Entry = NoEntry | Locked | Settled

  datatype Site = Site(dir: Worktree, marker: Option<string>, entry: Entry)

  /** A ref in the working directory of one chat. */
  datatype Target = Target(workdir: nat, ref: string)

  /** `forced` is how often git is told to force `worktree add`. `wiped` are the working directories that someone began to
      delete together with their chat, unless they were left empty since. */
  datatype World = World(mirror: Clone, tmp: Clone, sites: map<Target, Site>, forced: nat, wiped: set<nat>)

  /** `Blocked`: a step failed because of something an earlier checkout left behind. */
  datatype Failure = Interrupted | CloneFailed | UnknownRef | AddFailed | Blocked

  /** Where a checkout is. Each place is a point where it can be interrupted. */
  datatype Place =
    | Arriving
    | Looking
    | ClearingTmp
    | StartingClone
    | RunningClone
    | Renaming
    | Fetching
    | Synced
    | Checking
    | Resolving
    | DroppingMarker(commit: string)
    | Removing(commit: string)
    | RemovingRest(commit: string)
    | Pruning(commit: string)
    | StartingAdd(commit: string)
    | RunningAdd(commit: string)
    | CreatingMarker(commit: string)
    | WritingMarker(commit: string)
    | Finished(reported: string)
    | Outlived(reported: string)   // finished, and deleted since
    | Failed(why: Failure)

  datatype Task = Task(target: Target, place: Place)

  datatype State = State(world: World, tasks: map<nat, Task>)

  function Initial(forced: nat): State {
    State(World(NoClone, NoClone, map[], forced, {}), map[])
  }

  /** `-f -f` */
  const FORCED: nat := 2

  const INITIAL := Initial(FORCED)

  /** What is not up to the proxy: whether the last fetch is too old; the origin's refs if it can be reached; whether the
      blobs of a worktree, which the mirror does not hold from the start, are cached or can be fetched; and whether git
      removes what it did when it fails without them. */
  datatype Luck = Luck(fetchIsDue: bool, origin: Option<Refs>, blobs: bool, cleansUp: bool)

  predicate Ended(place: Place) {
    place.Finished? || place.Outlived? || place.Failed?
  }

  /** Whether a checkout at this place holds the lock of the repository. */
  predicate Holds(place: Place) {
    !place.Arriving? && !place.Synced? && !Ended(place)
  }

  predicate Free(tasks: map<nat, Task>) {
    forall id :: id in tasks ==> !Holds(tasks[id].place)
  }

  function SiteOf(w: World, target: Target): Site {
    if target in w.sites then w.sites[target] else Site(Gone, None, NoEntry)
  }

  function Put(w: World, target: Target, site: Site): World {
    w.(sites := w.sites[target := site])
  }

  /** Forgets worktrees whose directory is gone, except locked ones. */
  function Pruned(site: Site): Site {
    if site.dir.Gone? && site.entry.Settled? then site.(entry := NoEntry) else site
  }

  /** Git refuses a directory that exists, a known worktree unless forced, and a locked one unless forced twice. */
  predicate GitAdds(site: Site, forced: nat) {
    site.dir.Gone? && (site.entry.Settled? ==> forced >= 1) && (site.entry.Locked? ==> forced >= 2)
  }

  /** The directory and the marker are there: nothing is left to do. */
  predicate Complete(site: Site) {
    !site.dir.Gone? && site.marker.Some?
  }

  function Short(commit: string): string {
    if |commit| <= 12 then commit else commit[..12]
  }

  /** What is left of a worktree that could not be filled. */
  function Unfilled(site: Site, cleansUp: bool): Site {
    if cleansUp then site.(dir := Gone, entry := NoEntry) else site.(dir := Part, entry := Locked)
  }

  // ---- Steps

  /** The next piece of work of a checkout that may go on. */
  function Work(w: World, task: Task, luck: Luck): (World, Place) {
    var site := SiteOf(w, task.target);
    match task.place
    case Arriving => (w, Looking)
    case Looking => (w, if w.mirror.NoClone? then ClearingTmp else if luck.fetchIsDue then Fetching else Synced)
    case ClearingTmp => (w.(tmp := NoClone), StartingClone)
    case StartingClone => if w.tmp.NoClone? then (w.(tmp := PartialClone), RunningClone) else (w, Failed(Blocked))
    case RunningClone =>
      (match luck.origin
       case Some(refs) => (w.(tmp := FullClone(refs)), Renaming)
       case None => (w, Failed(CloneFailed)))
    case Renaming =>
      if w.mirror.NoClone? then (w.(mirror := w.tmp, tmp := NoClone), Synced) else (w, Failed(Blocked))
    case Fetching =>
      (match luck.origin
       case Some(refs) => (w.(mirror := if w.mirror.FullClone? then FullClone(refs) else w.mirror), Synced)
       case None => (w, Synced))
    case Synced => (w, Checking)
    case Checking => (w, if Complete(site) then Finished(Short(site.marker.value)) else Resolving)
    case Resolving =>
      if !w.mirror.FullClone? then (w, Failed(Blocked))
      else if task.target.ref in w.mirror.refs then (w, DroppingMarker(w.mirror.refs[task.target.ref]))
      else (w, Failed(UnknownRef))
    case DroppingMarker(commit) =>
      (Put(w, task.target, site.(marker := None)), if site.dir.Gone? then Pruning(commit) else Removing(commit))
    case Removing(commit) => (Put(w, task.target, site.(dir := Part)), RemovingRest(commit))
    case RemovingRest(commit) => (Put(w, task.target, site.(dir := Gone)), Pruning(commit))
    case Pruning(commit) =>
      (w.(sites := map target | target in w.sites :: Pruned(w.sites[target])), StartingAdd(commit))
    case StartingAdd(commit) =>
      if GitAdds(site, w.forced) then (Put(w, task.target, site.(dir := Part, entry := Locked)), RunningAdd(commit))
      else (w, Failed(Blocked))
    case RunningAdd(commit) =>
      if luck.blobs then (Put(w, task.target, site.(dir := Whole(commit), entry := Settled)), CreatingMarker(commit))
      else (Put(w, task.target, Unfilled(site, luck.cleansUp)), Failed(AddFailed))
    case CreatingMarker(commit) => (Put(w, task.target, site.(marker := Some(""))), WritingMarker(commit))
    case WritingMarker(commit) => (Put(w, task.target, site.(marker := Some(commit))), Finished(Short(commit)))
    case _ => (w, task.place)
  }

  /** A checkout waits only for the lock. */
  predicate Enabled(s: State, id: nat)
    requires id in s.tasks
  {
    !Ended(s.tasks[id].place) && (Holds(s.tasks[id].place) || Free(s.tasks))
  }

  /** A step in the deletion of a chat's directory, which takes no notice of checkouts and removes files in any order. */
  datatype Loss = SomeFiles | WholeDirectory | TheMarker

  function Worn(site: Site, loss: Loss): Site {
    match loss
    case SomeFiles => if site.dir.Gone? then site else site.(dir := Part)
    case WholeDirectory => site.(dir := Gone)
    case TheMarker => site.(marker := None)
  }

  /** git fills the worktree or the marker is being written. */
  predicate Filling(place: Place) {
    place.RunningAdd? || place.CreatingMarker? || place.WritingMarker?
  }

  predicate NobodyFills(s: State, workdir: nat) {
    forall id :: id in s.tasks && s.tasks[id].target.workdir == workdir ==> !Filling(s.tasks[id].place)
  }

  /** The deletion of a chat's directory is complete: nothing is left in it, except what a checkout that is being made may
      still put there. What the mirror has on file about its worktrees stays. */
  function Emptied(s: State, workdir: nat): State {
    var w := s.world;
    State(
      w.(sites := map target | target in w.sites ::
           if target.workdir == workdir then Site(Gone, None, w.sites[target].entry) else w.sites[target],
         wiped := if NobodyFills(s, workdir) then w.wiped - {workdir} else w.wiped + {workdir}),
      map id | id in s.tasks ::
        if s.tasks[id].target.workdir == workdir && s.tasks[id].place.Finished? then
          s.tasks[id].(place := Outlived(s.tasks[id].place.reported))
        else s.tasks[id])
  }

  /** `Halt` covers errors, cancellation and the end of the proxy; what was done so far stays. */
  datatype Event =
    | Come(id: nat, target: Target)
    | Go(id: nat, luck: Luck)
    | Halt(id: nat)
    | Wipe(target: Target, loss: Loss)
    | Empty(workdir: nat)

  function Next(s: State, event: Event): State {
    match event
    case Come(id, target) => if id in s.tasks then s else s.(tasks := s.tasks[id := Task(target, Arriving)])
    case Go(id, luck) =>
      if id in s.tasks && Enabled(s, id) then
        var (world, place) := Work(s.world, s.tasks[id], luck);
        State(world, s.tasks[id := s.tasks[id].(place := place)])
      else s
    case Halt(id) =>
      if id in s.tasks && !Ended(s.tasks[id].place) then
        s.(tasks := s.tasks[id := s.tasks[id].(place := Failed(Interrupted))])
      else s
    case Wipe(target, loss) =>
      s.(world := Put(s.world, target, Worn(SiteOf(s.world, target), loss)).(wiped := s.world.wiped + {target.workdir}))
    case Empty(workdir) => Emptied(s, workdir)
  }

  function Run(s: State, events: seq<Event>): State {
    if events == [] then s else Next(Run(s, DropLast(events)), Last(events))
  }

  // ---- What every step keeps

  /** A marker beside a directory means that all of the directory is there, and the marker tells its commit, possibly cut
      short by an interruption. */
  predicate Trusted(site: Site) {
    Complete(site) ==> site.dir.Whole? && site.marker.value <= site.dir.commit
  }

  /** Nobody began to delete the chat this checkout belongs to, or its directory was left empty since. */
  predicate Intact(w: World, target: Target) {
    target.workdir !in w.wiped
  }

  predicate WorldIsSound(w: World) {
    !w.mirror.PartialClone? && forall target :: target in w.sites && Intact(w, target) ==> Trusted(w.sites[target])
  }

  /** What a checkout relies on. */
  predicate Relies(w: World, task: Task) {
    var site, intact := SiteOf(w, task.target), Intact(w, task.target);
    match task.place
    case Arriving => true
    case Looking => true
    case ClearingTmp => w.mirror.NoClone?
    case StartingClone => w.mirror.NoClone? && w.tmp.NoClone?
    case RunningClone => w.mirror.NoClone? && w.tmp.PartialClone?
    case Renaming => w.mirror.NoClone? && w.tmp.FullClone?
    case Fetching => w.mirror.FullClone?
    case Synced => w.mirror.FullClone?
    case Checking => w.mirror.FullClone?
    case Resolving => w.mirror.FullClone? && !Complete(site)
    case DroppingMarker(_) => w.mirror.FullClone? && !Complete(site)
    case Removing(_) => w.mirror.FullClone? && site.marker.None?
    case RemovingRest(_) => w.mirror.FullClone? && site.marker.None?
    case Pruning(_) => w.mirror.FullClone? && site.marker.None? && site.dir.Gone?
    case StartingAdd(_) => w.mirror.FullClone? && site.marker.None? && site.dir.Gone?
    case RunningAdd(_) => w.mirror.FullClone? && site.marker.None?
    case CreatingMarker(commit) => w.mirror.FullClone? && site.marker.None? && (intact ==> site.dir == Whole(commit))
    case WritingMarker(commit) => w.mirror.FullClone? && (intact ==> site.marker == Some("") && site.dir == Whole(commit))
    case Finished(reported) =>
      w.mirror.FullClone? && (intact ==> Complete(site) && site.dir.Whole? && reported <= site.marker.value)
    case Outlived(_) => w.mirror.FullClone?
    case Failed(why) => why == Blocked ==> w.forced < 2
  }

  /** At most one checkout holds the lock, and all of them can rely on what they rely on. */
  ghost predicate Sound(s: State) {
    && WorldIsSound(s.world)
    && (forall id :: id in s.tasks ==> Relies(s.world, s.tasks[id]))
    && (forall a, b :: a in s.tasks && b in s.tasks && Holds(s.tasks[a].place) && Holds(s.tasks[b].place) ==> a == b)
  }

  /** A complete checkout stays: its directory as it is, and its marker at most made longer. */
  predicate Stays(site: Site, after: Site) {
    Complete(site) ==> Complete(after) && after.dir == site.dir && site.marker.value <= after.marker.value
  }

  /** `emptied` are the working directories that were emptied in between. */
  ghost predicate Keeps(w: World, after: World, emptied: set<nat>) {
    && (w.mirror.FullClone? ==> after.mirror.FullClone?)
    && after.forced == w.forced
    && w.wiped <= after.wiped + emptied
    && forall target :: Intact(after, target) && target.workdir !in emptied ==>
         Stays(SiteOf(w, target), SiteOf(after, target))
  }

  function EmptiedBy(event: Event): set<nat> {
    if event.Empty? then {event.workdir} else {}
  }

  function AllEmptied(events: seq<Event>): set<nat> {
    if events == [] then {} else AllEmptied(DropLast(events)) + EmptiedBy(Last(events))
  }

  lemma WorkIsSound(w: World, task: Task, luck: Luck)
    requires WorldIsSound(w) && Relies(w, task)
    ensures var (after, place) := Work(w, task, luck);
            WorldIsSound(after) && Keeps(w, after, {}) && Relies(after, task.(place := place))
  {
    if Looked(task.place) {
      LaterWorkIsSound(w, task, luck);
    }
  }

  /** Past the check for an existing checkout. */
  predicate Looked(place: Place) {
    || place.Resolving? || place.DroppingMarker? || place.Removing? || place.RemovingRest? || place.Pruning?
    || place.StartingAdd? || place.RunningAdd? || place.CreatingMarker? || place.WritingMarker?
  }

  lemma LaterWorkIsSound(w: World, task: Task, luck: Luck)
    requires WorldIsSound(w) && Relies(w, task) && Looked(task.place)
    ensures var (after, place) := Work(w, task, luck);
            WorldIsSound(after) && Keeps(w, after, {}) && Relies(after, task.(place := place))
  {
  }

  /** A checkout that holds no lock relies only on what nobody takes away. */
  lemma WaitingIsSafe(w: World, after: World, task: Task)
    requires Keeps(w, after, {}) && Relies(w, task) && !Holds(task.place)
    ensures Relies(after, task)
  {
    assert Intact(after, task.target) ==> Stays(SiteOf(w, task.target), SiteOf(after, task.target));
  }

  /** Deleting only takes away, and a checkout under way relies only on things not being there in a directory that is being
      deleted. */
  lemma WipingIsSafe(s: State, target: Target, loss: Loss)
    requires Sound(s)
    ensures Sound(Next(s, Wipe(target, loss))) && Keeps(s.world, Next(s, Wipe(target, loss)).world, {})
  {
  }

  /** In a directory that was left empty everything starts anew, as long as nobody goes on with a checkout there. */
  lemma EmptyingIsSafe(s: State, workdir: nat)
    requires Sound(s)
    ensures Sound(Emptied(s, workdir)) && Keeps(s.world, Emptied(s, workdir).world, {workdir})
  {
    var after := Emptied(s, workdir);
    forall id | id in after.tasks
      ensures Relies(after.world, after.tasks[id])
    {
      assert Relies(s.world, s.tasks[id]);
    }
  }

  lemma NextIsSound(s: State, event: Event)
    requires Sound(s)
    ensures Sound(Next(s, event)) && Keeps(s.world, Next(s, event).world, EmptiedBy(event))
  {
    if event.Empty? {
      EmptyingIsSafe(s, event.workdir);
    } else if event.Wipe? {
      WipingIsSafe(s, event.target, event.loss);
    } else if event.Go? && event.id in s.tasks && Enabled(s, event.id) {
      var after := Next(s, event);
      WorkIsSound(s.world, s.tasks[event.id], event.luck);
      forall id | id in after.tasks
        ensures Relies(after.world, after.tasks[id])
      {
        if id != event.id {
          WaitingIsSafe(s.world, after.world, s.tasks[id]);
        }
      }
    }
  }

  lemma {:induction false} RunIsSound(s: State, events: seq<Event>)
    requires Sound(s)
    ensures Sound(Run(s, events)) && Keeps(s.world, Run(s, events).world, AllEmptied(events))
  {
    if events != [] {
      RunIsSound(s, DropLast(events));
      var before := Run(s, DropLast(events));
      NextIsSound(before, Last(events));
      forall target | Intact(Run(s, events).world, target) && target.workdir !in AllEmptied(events)
        ensures Stays(SiteOf(s.world, target), SiteOf(Run(s, events).world, target))
      {
        assert Stays(SiteOf(s.world, target), SiteOf(before.world, target));
      }
    }
  }

  // ---- Over all runs

  /** From a fresh data directory, whatever the interleaving, the failures and the interruptions, in a chat nobody began to
      delete: where a marker and a directory are, the worktree is complete and the marker tells its commit, and what a
      finished checkout reported is there. A mirror that is there is a complete clone. Forced twice, git is never stopped by
      something that was left behind. */
  lemma CheckoutsSurviveInterruption(forced: nat, events: seq<Event>, target: Target, id: nat)
    ensures var s := Run(Initial(forced), events);
            && (Intact(s.world, target) ==> Trusted(SiteOf(s.world, target)))
            && !s.world.mirror.PartialClone?
            && (id in s.tasks && s.tasks[id].place.Finished? && Intact(s.world, s.tasks[id].target) ==>
                  var site := SiteOf(s.world, s.tasks[id].target);
                  Complete(site) && site.dir.Whole? && s.tasks[id].place.reported <= site.dir.commit)
            && (id in s.tasks && s.tasks[id].place == Failed(Blocked) ==> forced < 2)
  {
    var s := Run(Initial(forced), events);
    FromTheStart(forced, events);
    if id in s.tasks && s.tasks[id].place.Finished? && Intact(s.world, s.tasks[id].target) {
      FinishedIsWhole(s, id);
    }
    assert id in s.tasks ==> Relies(s.world, s.tasks[id]);
  }

  lemma FinishedIsWhole(s: State, id: nat)
    requires Sound(s) && id in s.tasks && s.tasks[id].place.Finished? && Intact(s.world, s.tasks[id].target)
    ensures var site := SiteOf(s.world, s.tasks[id].target);
            site.dir.Whole? && site.marker.Some? && s.tasks[id].place.reported <= site.marker.value <= site.dir.commit
  {
    assert Relies(s.world, s.tasks[id]);
  }

  lemma FromTheStart(forced: nat, events: seq<Event>)
    ensures Sound(Run(Initial(forced), events)) && Run(Initial(forced), events).world.forced == forced
  {
    RunIsSound(Initial(forced), events);
  }

  /** At this point of the run the working directory was left empty, and nobody was filling it. */
  predicate ClearedAt(forced: nat, events: seq<Event>, i: nat, workdir: nat)
    requires i < |events|
  {
    events[i] == Empty(workdir) && NobodyFills(Run(Initial(forced), events[..i]), workdir)
  }

  /** Someone deletes in the working directory, and what is left of it or put there meanwhile is not cleared away. */
  predicate DeletesAt(forced: nat, events: seq<Event>, i: nat, workdir: nat)
    requires i < |events|
  {
    || (events[i].Wipe? && events[i].target.workdir == workdir)
    || (events[i] == Empty(workdir) && !ClearedAt(forced, events, i, workdir))
  }

  /** When a working directory can be trusted: exactly when every step of a deletion in it was followed by one that left it
      empty while nobody was filling it. */
  lemma {:induction false} IntactExactly(forced: nat, events: seq<Event>, target: Target)
    ensures Intact(Run(Initial(forced), events).world, target)
            <==> forall i :: 0 <= i < |events| && DeletesAt(forced, events, i, target.workdir) ==>
                   exists j :: i < j < |events| && ClearedAt(forced, events, j, target.workdir)
  {
    if events != [] {
      var before := DropLast(events);
      IntactExactly(forced, before, target);
      SamePoints(forced, events, target.workdir);
      LastPoint(forced, events, target);
    }
  }

  lemma SamePoints(forced: nat, events: seq<Event>, workdir: nat)
    requires events != []
    ensures var before := DropLast(events);
            forall i :: 0 <= i < |before| ==>
              && (ClearedAt(forced, before, i, workdir) <==> ClearedAt(forced, events, i, workdir))
              && (DeletesAt(forced, before, i, workdir) <==> DeletesAt(forced, events, i, workdir))
  {
    assert forall i :: 0 <= i < |events| ==> DropLast(events)[..i] == events[..i];
  }

  lemma LastPoint(forced: nat, events: seq<Event>, target: Target)
    requires events != []
    ensures var w, n := Run(Initial(forced), DropLast(events)).world, |events| - 1;
            Intact(Run(Initial(forced), events).world, target)
            <==> ClearedAt(forced, events, n, target.workdir)
                 || (Intact(w, target) && !DeletesAt(forced, events, n, target.workdir))
  {
    var s, event := Run(Initial(forced), DropLast(events)), Last(events);
    assert events[..|events| - 1] == DropLast(events);
    if event.Go? && event.id in s.tasks {
      WorkWipesNothing(s.world, s.tasks[event.id], event.luck);
    }
  }

  lemma {:induction false} RunInParts(s: State, before: seq<Event>, after: seq<Event>)
    ensures Run(s, before + after) == Run(Run(s, before), after)
  {
    if after == [] {
      assert before + after == before;
    } else {
      RunInParts(s, before, DropLast(after));
      assert DropLast(before + after) == before + DropLast(after);
    }
  }

  /** Once complete, a checkout stays what it is as long as its chat is not deleted, even when its ref moves and others fetch
      and check out. */
  lemma CompletedStays(before: seq<Event>, after: seq<Event>, target: Target)
    requires Intact(Run(INITIAL, before).world, target)
    requires forall i :: 0 <= i < |after| ==>
               && (after[i].Wipe? ==> after[i].target.workdir != target.workdir)
               && after[i] != Empty(target.workdir)
    ensures Stays(SiteOf(Run(INITIAL, before).world, target), SiteOf(Run(INITIAL, before + after).world, target))
  {
    RunIsSound(INITIAL, before);
    RunIsSound(Run(INITIAL, before), after);
    RunInParts(INITIAL, before, after);
    StaysIntact(Run(INITIAL, before), after, target);
  }

  lemma {:induction false} StaysIntact(s: State, events: seq<Event>, target: Target)
    requires Intact(s.world, target)
    requires forall i :: 0 <= i < |events| ==>
               && (events[i].Wipe? ==> events[i].target.workdir != target.workdir)
               && events[i] != Empty(target.workdir)
    ensures Intact(Run(s, events).world, target) && target.workdir !in AllEmptied(events)
  {
    if events != [] {
      StaysIntact(s, DropLast(events), target);
      var before := Run(s, DropLast(events));
      assert Last(events) == events[|events| - 1];
      if Last(events).Go? && Last(events).id in before.tasks {
        WorkWipesNothing(before.world, before.tasks[Last(events).id], Last(events).luck);
      }
    }
  }

  // ---- Every checkout comes to an end

  /** How many steps a checkout has left at most. */
  function StepsLeft(place: Place): nat {
    match place
    case Arriving => 17
    case Looking => 16
    case ClearingTmp => 15
    case StartingClone => 14
    case RunningClone => 13
    case Renaming => 12
    case Fetching => 12
    case Synced => 11
    case Checking => 10
    case Resolving => 9
    case DroppingMarker(_) => 8
    case Removing(_) => 7
    case RemovingRest(_) => 6
    case Pruning(_) => 5
    case StartingAdd(_) => 4
    case RunningAdd(_) => 3
    case CreatingMarker(_) => 2
    case WritingMarker(_) => 1
    case Finished(_) => 0
    case Outlived(_) => 0
    case Failed(_) => 0
  }

  /** Someone can go on unless everyone is done. */
  lemma SomeoneCanGoOn(s: State, id: nat) returns (who: nat)
    requires id in s.tasks && !Ended(s.tasks[id].place)
    ensures who in s.tasks && Enabled(s, who)
  {
    if Free(s.tasks) {
      who := id;
    } else {
      who :| who in s.tasks && Holds(s.tasks[who].place);
    }
  }

  lemma EnabledStepCounts(s: State, id: nat, luck: Luck)
    requires id in s.tasks && Enabled(s, id)
    ensures StepsLeft(Next(s, Go(id, luck)).tasks[id].place) < StepsLeft(s.tasks[id].place)
  {
  }

  predicate OffersRef(luck: Luck, ref: string) {
    luck.origin.Some? && ref in luck.origin.value && luck.blobs
  }

  /** The ref can be resolved, in the mirror and in a clone about to become the mirror. */
  ghost predicate Resolvable(s: State, ref: string) {
    && (s.world.mirror.FullClone? ==> ref in s.world.mirror.refs)
    && (forall id :: id in s.tasks && s.tasks[id].place.Renaming? && s.world.tmp.FullClone? ==> ref in s.world.tmp.refs)
  }

  lemma StaysResolvable(s: State, event: Event, ref: string)
    requires Sound(s) && Resolvable(s, ref) && (event.Go? ==> OffersRef(event.luck, ref))
    ensures Resolvable(Next(s, event), ref)
  {
    if event.Go? && event.id in s.tasks && Enabled(s, event.id) {
      assert Relies(s.world, s.tasks[event.id]);
      forall id | id in s.tasks && s.tasks[id].place.Renaming?
        ensures id == event.id
      {
        assert Holds(s.tasks[id].place);
      }
    }
  }

  lemma StepDoesNotFail(s: State, event: Event, id: nat)
    requires Sound(s) && s.world.forced >= 2 && id in s.tasks && !s.tasks[id].place.Failed? && event != Halt(id)
    requires Resolvable(s, s.tasks[id].target.ref)
    requires event.Go? ==> OffersRef(event.luck, s.tasks[id].target.ref)
    ensures id in Next(s, event).tasks && Next(s, event).tasks[id].target == s.tasks[id].target
    ensures !Next(s, event).tasks[id].place.Failed?
  {
    NextIsSound(s, event);
    assert Relies(Next(s, event).world, Next(s, event).tasks[id]);
    assert Relies(s.world, s.tasks[id]);
  }

  /** Whatever was left behind and whatever others do, a checkout of a ref the origin offers fails only if it is
      interrupted itself. */
  lemma {:induction false} OnlyInterruptionsFail(s: State, events: seq<Event>, id: nat)
    requires Sound(s) && s.world.forced >= 2 && id in s.tasks && !s.tasks[id].place.Failed?
    requires Resolvable(s, s.tasks[id].target.ref)
    requires forall i :: 0 <= i < |events| ==>
               events[i] != Halt(id) && (events[i].Go? ==> OffersRef(events[i].luck, s.tasks[id].target.ref))
    ensures var after := Run(s, events);
            && Sound(after)
            && after.world.forced >= 2
            && id in after.tasks
            && after.tasks[id].target == s.tasks[id].target
            && !after.tasks[id].place.Failed?
            && Resolvable(after, s.tasks[id].target.ref)
  {
    if events != [] {
      OnlyInterruptionsFail(s, DropLast(events), id);
      var before := Run(s, DropLast(events));
      NextIsSound(before, Last(events));
      StaysResolvable(before, Last(events), s.tasks[id].target.ref);
      StepDoesNotFail(before, Last(events), id);
    }
  }

  /** Nobody else holds the lock. */
  predicate Alone(s: State, id: nat) {
    forall other :: other in s.tasks && other != id ==> !Holds(s.tasks[other].place)
  }

  lemma {:induction false} AloneItGoesOn(s: State, events: seq<Event>, id: nat)
    requires id in s.tasks && Alone(s, id)
    requires forall i :: 0 <= i < |events| ==> events[i].Go? && events[i].id == id
    ensures var after := Run(s, events);
            && id in after.tasks
            && Alone(after, id)
            && (Ended(after.tasks[id].place)
                || StepsLeft(after.tasks[id].place) + |events| <= StepsLeft(s.tasks[id].place))
  {
    if events != [] {
      AloneItGoesOn(s, DropLast(events), id);
      var before := Run(s, DropLast(events));
      assert Last(events).Go? && Last(events).id == id;
      if Enabled(before, id) {
        EnabledStepCounts(before, id, Last(events).luck);
      }
    }
  }

  /** From every state that interrupted checkouts can leave behind, a checkout of a ref the origin offers that is left to
      run ends complete, within 17 steps. */
  lemma UninterruptedCheckoutCompletes(s: State, past: seq<Event>, id: nat, events: seq<Event>)
    requires s == Run(INITIAL, past)
    requires id in s.tasks && s.tasks[id].place.Arriving? && Free(s.tasks) && Intact(s.world, s.tasks[id].target)
    requires s.world.mirror.FullClone? ==> s.tasks[id].target.ref in s.world.mirror.refs
    requires |events| >= 17
    requires forall i :: 0 <= i < |events| ==>
               events[i].Go? && events[i].id == id && OffersRef(events[i].luck, s.tasks[id].target.ref)
    ensures var after := Run(s, events);
            var site := SiteOf(after.world, s.tasks[id].target);
            && id in after.tasks
            && after.tasks[id].place.Finished?
            && site.dir.Whole?
            && site.marker.Some?
            && after.tasks[id].place.reported <= site.marker.value <= site.dir.commit
  {
    FromTheStart(FORCED, past);
    LeftToRunFinishes(s, id, events);
    NothingIsWiped(s, events);
    FinishedIsWhole(Run(s, events), id);
  }

  lemma LeftToRunFinishes(s: State, id: nat, events: seq<Event>)
    requires Sound(s) && s.world.forced >= 2 && id in s.tasks && s.tasks[id].place.Arriving? && Free(s.tasks)
    requires s.world.mirror.FullClone? ==> s.tasks[id].target.ref in s.world.mirror.refs
    requires |events| >= 17
    requires forall i :: 0 <= i < |events| ==>
               events[i].Go? && events[i].id == id && OffersRef(events[i].luck, s.tasks[id].target.ref)
    ensures var after := Run(s, events);
            && Sound(after)
            && id in after.tasks
            && after.tasks[id].target == s.tasks[id].target
            && after.tasks[id].place.Finished?
  {
    OnlyInterruptionsFail(s, events, id);
    AloneItGoesOn(s, events, id);
    NotOutlived(s, events, id);
  }

  /** Only the deletion of its chat outlives a checkout. */
  lemma {:induction false} NotOutlived(s: State, events: seq<Event>, id: nat)
    requires id in s.tasks && !s.tasks[id].place.Outlived? && forall i :: 0 <= i < |events| ==> !events[i].Empty?
    ensures id in Run(s, events).tasks && !Run(s, events).tasks[id].place.Outlived?
  {
    if events != [] {
      NotOutlived(s, DropLast(events), id);
    }
  }

  lemma WorkWipesNothing(w: World, task: Task, luck: Luck)
    ensures Work(w, task, luck).0.wiped == w.wiped
  {
  }

  lemma {:induction false} NothingIsWiped(s: State, events: seq<Event>)
    requires forall i :: 0 <= i < |events| ==> events[i].Go?
    ensures Run(s, events).world.wiped == s.world.wiped
  {
    if events != [] {
      NothingIsWiped(s, DropLast(events));
      assert Last(events).Go?;
      var before := Run(s, DropLast(events));
      if Last(events).id in before.tasks {
        WorkWipesNothing(before.world, before.tasks[Last(events).id], Last(events).luck);
      }
    }
  }

  // ---- Reports

  /** A checkout that finds its directory and marker reports what the marker says. That is the commit of the directory exactly
      unless the marker was cut short to less than what is reported of a commit. */
  lemma ReportIsExact(w: World, task: Task, luck: Luck)
    requires WorldIsSound(w) && Relies(w, task) && task.place.Checking? && Complete(SiteOf(w, task.target)) && Intact(w, task.target)
    ensures var site := SiteOf(w, task.target);
            Work(w, task, luck).1 == Finished(Short(site.dir.commit))
            <==> |site.marker.value| >= 12 || site.marker.value == site.dir.commit
  {
  }
}
