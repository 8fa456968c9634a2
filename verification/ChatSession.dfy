/** The session object of one chat, updated in place by `begin_turn` and `end_turn`. Every method is tied to the step of
    `Conversation` it performs, so what is proved about the steps and their runs holds of it. */
module ChatSession {
  import opened Conversation
  import opened History
  import opened Omp
  import opened Wrappers

  class Session {
    const dir: SessionDir
    var proc: Process?
    var forwarded: seq<ForwardedTurn>
    var sessionFile: Option<nat>
    var busy: bool
    var generation: nat
    var index: Option<IndexEntry>

    ghost function View(): Chat
      reads this, dir, proc
    {
      Chat(if Alive() then Some(proc.View()) else None, dir.files, forwarded, sessionFile, busy, generation, index)
    }

    predicate Alive()
      reads this, proc
    {
      proc != null && proc.alive
    }

    ghost predicate Valid()
      reads this, dir, proc
    {
      OnDisk(View()) && (proc != null ==> proc.dir == dir)
    }

    constructor (dir: SessionDir)
      requires dir.files == []
      ensures Valid() && View() == NEW_CHAT && this.dir == dir && proc == null
    {
      this.dir := dir;
      proc, forwarded, sessionFile, busy, generation, index := null, [], None, false, 0, None;
    }

    method GiveUp()
      modifies this`proc, proc
      ensures proc == null
    {
      if proc != null {
        proc.Shutdown();
        proc := null;
      }
    }

    /** Cancels the running turn, if there is one, for a newer request. */
    method CancelRunning(stopped: bool)
      requires Valid()
      modifies this, proc
      ensures Valid() && dir.files == old(dir.files)
      ensures View() == Supersede(old(View()), stopped)
      ensures proc == null || proc == old(proc)
    {
      if busy {
        busy := false;
        generation := generation + 1;
        if !stopped {
          GiveUp();
        }
      }
    }

    /** Makes sure a process is live: starts one, resuming the known session file. */
    method EnsureProcess(fate: BeginFate) returns (error: Option<Outcome>)
      requires Valid()
      modifies this, dir
      ensures Valid() && (View(), error) == Launch(old(View()), fate)
      ensures error.None? ==> Alive()
      ensures proc == null || proc == old(proc) || fresh(proc)
    {
      if Alive() {
        return None;
      }
      proc := null;
      if !fate.admitted {
        return Some(Unavailable);
      }
      if fate.spawn.Failed? && !fate.spawn.applied {
        return Some(Broken);
      }
      var started := new Process(dir, sessionFile);
      if fate.spawn.Failed? {
        return Some(Broken);
      }
      proc := started;
      sessionFile := Some(started.file);
      return None;
    }

    /** Carries out the plan for these turns up to, but not including, the prompt. Returns the record to fall back to, the
        record to extend once the prompt is accepted, and the message to send, or no message and no process when a control
        command failed. */
    method PrepareOmp(turns: seq<UserTurn>, rebuilt: string, fate: BeginFate)
      returns (synced: seq<ForwardedTurn>, pending: seq<ForwardedTurn>, message: Option<string>)
      requires Valid() && Alive() && turns != []
      modifies this`proc, proc, dir
      ensures proc == null || proc == old(proc)
      ensures message.Some? ==>
                && Alive() && proc.Valid()
                && Prepare(old(View()), turns, rebuilt, fate)
                   == Ready(proc.View(), dir.files, synced, pending, message.value)
      ensures message.None? ==>
                proc == null && Prepare(old(View()), turns, rebuilt, fate) == GivenUp(dir.files, synced)
    {
      synced, pending := forwarded, forwarded;
      var plan := PlanFor(pending, turns);
      if plan.BranchAt? {
        if fate.fetch.Failed? {
          GiveUp();
          return synced, pending, None;
        }
        var found := FindEntry(pending, plan.index, proc.entries);
        match found {
          case Some(id) =>
            if fate.branch.Answered? || fate.branch.applied {
              proc.HandleBranch(id);
            }
            if fate.branch.Failed? {
              GiveUp();
              return synced, pending, None;
            }
            synced, pending := synced[..plan.index], pending[..plan.index];
          case None =>
            plan := Rebuild;
        }
      }
      if plan.Rebuild? {
        if pending != [] {
          if fate.reset.Answered? || fate.reset.applied {
            proc.HandleNewSession();
          }
          if fate.reset.Failed? {
            GiveUp();
            return synced, pending, None;
          }
          synced := [];
        }
        pending := Placeholders(DropLast(turns));
        message := Some(rebuilt);
      } else {
        message := Some(Last(turns).text);
      }
    }

    method BeginTurn(messages: seq<Message>, sha: string -> string, tidy: string -> string, fate: BeginFate)
      returns (outcome: Outcome)
      requires Valid()
      modifies this, proc, dir
      ensures Valid()
      ensures var turns := Turns(messages, sha);
              var rebuilt := if turns == [] then "" else RebuildText(messages, Last(turns).text, tidy);
              (View(), outcome) == Conversation.BeginTurn(old(View()), turns, rebuilt, fate)
    {
      var turns := UserTurns(messages, sha);
      if turns == [] {
        return BadRequest;
      }
      var rebuilt := RebuildPrompt(messages, Last(turns), tidy);
      CancelRunning(fate.stopped);
      var error := EnsureProcess(fate);
      if error.Some? {
        return error.value;
      }
      outcome := PromptOmp(turns, rebuilt, fate);
    }

    method PromptOmp(turns: seq<UserTurn>, rebuilt: string, fate: BeginFate) returns (outcome: Outcome)
      requires Valid() && Alive() && turns != []
      modifies this, proc, dir
      ensures Valid()
      ensures (View(), outcome)
              == Send(old(View()), Prepare(old(View()), turns, rebuilt, fate), Last(turns), fate)
    {
      ghost var ready := View();
      PrepareStaysOnDisk(ready, turns, rebuilt, fate);
      SendStaysOnDisk(ready, Prepare(ready, turns, rebuilt, fate), Last(turns), fate);
      var synced, pending, message := PrepareOmp(turns, rebuilt, fate);
      if message.None? {
        forwarded := synced;
        return Broken;
      }
      outcome := SendPrompt(synced, pending, message.value, Last(turns), fate, ready);
    }

    method SendPrompt(
      synced: seq<ForwardedTurn>, pending: seq<ForwardedTurn>, message: string, last: UserTurn, fate: BeginFate,
      ghost ready: Chat)
      returns (outcome: Outcome)
      requires Alive() && proc.dir == dir && proc.Valid()
      requires ready.(omp := Some(proc.View()), disk := dir.files) == View()
      requires OnDisk(Send(ready, Ready(proc.View(), dir.files, synced, pending, message), last, fate).0)
      modifies this, proc, dir
      ensures Valid()
      ensures (View(), outcome)
              == Send(ready, Ready(old(proc.View()), old(dir.files), synced, pending, message), last, fate)
    {
      if fate.prompt.Answered? || fate.prompt.applied {
        var _ := proc.HandlePrompt(message, fate.prompt.Answered? && !fate.kept);
      }
      if fate.prompt.Failed? {
        forwarded := synced;
        if fate.prompt.exited {
          proc.Shutdown();
          proc := null;
        }
        return Broken;
      }
      forwarded := pending + [ForwardedTurn(last.digest, Some(message))];
      generation := generation + 1;
      busy := true;
      return Started(message, last.images);
    }

    /** `SyncAfterTurn` on the fields of the session; the loop decides whether a turn that was sent on its own is left. */
    method SyncWithOmp(aborted: bool, fate: EndFate) returns (ok: bool)
      requires Valid() && Alive()
      modifies this`forwarded, this`sessionFile
      ensures Valid() && (View(), ok) == SyncAfterTurn(old(View()), aborted, fate)
    {
      if aborted && fate.abort.Failed? {
        return false;
      }
      if fate.fetch.Failed? {
        return false;
      }
      var stored := proc.entries;
      if stored == [] {
        forwarded := [];
      } else if forwarded != [] && Last(forwarded).sentText.Some? && Last(stored).text != Last(forwarded).sentText.value {
        forwarded := DropLast(forwarded);
        var sentOne := false;
        for i := 0 to |forwarded|
          invariant sentOne <==> exists j :: 0 <= j < i && forwarded[j].sentText.Some?
        {
          sentOne := sentOne || forwarded[i].sentText.Some?;
        }
        if !sentOne {
          forwarded := [];
        }
      }
      if fate.state.Failed? {
        return false;
      }
      sessionFile := Some(proc.file);
      return true;
    }

    /** Marks the turn of this generation finished; a turn that was superseded changes nothing. */
    method EndTurn(turn: nat, aborted: bool, fate: EndFate, stopIdle: bool)
      requires Valid()
      modifies this, proc
      ensures Valid()
      ensures View() == Conversation.EndTurn(old(View()), turn, aborted, fate, stopIdle)
    {
      if generation != turn {
        return;
      }
      busy := false;
      if Alive() {
        var ok := SyncWithOmp(aborted, fate);
        if !ok || stopIdle {
          GiveUp();
        }
      } else {
        proc := null;
      }
      index := Some(IndexEntry(sessionFile, forwarded));
    }
  }
}
