/** The agent process `omp` as the proxy sees it: an ordered list of stored user messages, each with an id, kept in
    step with a session file. A session directory is the list of files written so far; file number `n` is the
    `n`-th one created, so a new file never overwrites an older one. */
module Omp {
  import opened Wrappers

  datatype Entry = Entry(id: nat, text: string)

  type Disk = seq<seq<Entry>>

  /** What a running process holds in memory. */
  datatype Agent = Agent(entries: seq<Entry>, nextEntry: nat, file: nat)

  function Texts(entries: seq<Entry>): (texts: seq<string>)
    ensures |texts| == |entries|
    ensures forall i :: 0 <= i < |entries| ==> texts[i] == entries[i].text
  {
    seq(|entries|, i requires 0 <= i < |entries| => entries[i].text)
  }

  predicate DistinctIds(entries: seq<Entry>) {
    forall i, j :: 0 <= i < j < |entries| ==> entries[i].id != entries[j].id
  }

  /** The process and the directory agree: the current file exists and holds exactly the entries in memory. */
  predicate Saved(agent: Agent, disk: Disk) {
    agent.file < |disk| && disk[agent.file] == agent.entries
  }

  /** What `--resume` of this file would load; a path that does not exist is skipped by the caller. */
  function Stored(disk: Disk, file: Option<nat>): seq<Entry> {
    if file.Some? && file.value < |disk| then disk[file.value] else []
  }

  /** A new process: it loads the resumed file, or starts a new empty one. */
  function Start(disk: Disk, resume: Option<nat>): (Agent, Disk) {
    if resume.Some? && resume.value < |disk| then
      (Agent(disk[resume.value], |disk[resume.value]| + 100, resume.value), disk)
    else
      (Agent([], 1, |disk|), disk + [[]])
  }

  /** Position of the first entry with this id, or the number of entries when there is none. */
  function PositionOf(entries: seq<Entry>, id: nat): (pos: nat)
    ensures pos <= |entries|
    ensures pos < |entries| ==> entries[pos].id == id
    ensures forall i :: 0 <= i < pos ==> entries[i].id != id
  {
    if entries == [] || entries[0].id == id then 0 else 1 + PositionOf(entries[1..], id)
  }

  /** `branch`: cut the conversation just before entry `id` and continue in a new file. */
  function Branch(agent: Agent, disk: Disk, id: nat): (Agent, Disk) {
    var kept := agent.entries[..PositionOf(agent.entries, id)];
    (Agent(kept, agent.nextEntry, |disk|), disk + [kept])
  }

  /** `new_session`: forget everything and continue in a new file. */
  function NewSession(agent: Agent, disk: Disk): (Agent, Disk) {
    (Agent([], agent.nextEntry, |disk|), disk + [[]])
  }

  /** The part of `prompt` that keeps the message: it is appended to the conversation and to the current file. */
  function Store(agent: Agent, disk: Disk, message: string): (Agent, Disk)
    requires agent.file < |disk|
  {
    var entries := agent.entries + [Entry(agent.nextEntry, message)];
    (Agent(entries, agent.nextEntry + 1, agent.file), disk[agent.file := entries])
  }

  /** With distinct ids, branching at the entry of rank `k` keeps exactly the `k` entries before it. */
  lemma BranchKeepsRank(agent: Agent, disk: Disk, k: nat)
    requires DistinctIds(agent.entries) && k < |agent.entries|
    ensures Branch(agent, disk, agent.entries[k].id).0.entries == agent.entries[..k]
  {
    var pos := PositionOf(agent.entries, agent.entries[k].id);
    assert pos == k;
  }

  /** The session directory of a chat; it outlives the processes that write to it. */
  class SessionDir {
    var files: Disk

    constructor ()
      ensures files == []
    {
      files := [];
    }
  }

  /** A running process. A handled command changes the conversation and the session directory together. */
  class Process {
    const dir: SessionDir
    var entries: seq<Entry>
    var nextEntry: nat
    var file: nat
    var alive: bool

    ghost predicate Valid()
      reads this, dir
    {
      Saved(View(), dir.files)
    }

    function View(): Agent
      reads this
    {
      Agent(entries, nextEntry, file)
    }

    constructor (dir: SessionDir, resume: Option<nat>)
      modifies dir
      ensures Valid() && alive && this.dir == dir
      ensures (View(), dir.files) == Start(old(dir.files), resume)
    {
      this.dir := dir;
      alive := true;
      entries, nextEntry, file := [], 1, |dir.files|;
      new;
      if resume.Some? && resume.value < |dir.files| {
        entries, file := dir.files[resume.value], resume.value;
        nextEntry := |entries| + 100;
      } else {
        NewFile();
      }
    }

    /** Continues in a new session file that holds the current entries. */
    method NewFile()
      modifies this`file, dir
      ensures Valid()
      ensures file == |old(dir.files)| && dir.files == old(dir.files) + [entries]
    {
      file := |dir.files|;
      dir.files := dir.files + [entries];
    }

    method Save()
      requires file < |dir.files|
      modifies dir
      ensures Valid()
      ensures dir.files == old(dir.files)[file := entries]
    {
      dir.files := dir.files[file := entries];
    }

    method HandleBranch(id: nat)
      requires Valid()
      modifies this`entries, this`file, dir
      ensures Valid()
      ensures (View(), dir.files) == Branch(old(View()), old(dir.files), id)
    {
      var pos := 0;
      while pos < |entries| && entries[pos].id != id
        invariant pos <= |entries|
        invariant forall i :: 0 <= i < pos ==> entries[i].id != id
      {
        pos := pos + 1;
      }
      assert pos == PositionOf(entries, id);
      entries := entries[..pos];
      NewFile();
    }

    method HandleNewSession()
      requires Valid()
      modifies this`entries, this`file, dir
      ensures Valid()
      ensures (View(), dir.files) == NewSession(old(View()), old(dir.files))
    {
      entries := [];
      NewFile();
    }

    /** Acknowledges the message and stores it, or, if the run `failsLate`, reports a failure after the acknowledgement and
        stores nothing. `responses` says of each response whether it reports success. */
    method HandlePrompt(message: string, failsLate: bool) returns (responses: seq<bool>)
      requires Valid()
      modifies this`entries, this`nextEntry, dir
      ensures Valid() && responses == if failsLate then [true, false] else [true]
      ensures (View(), dir.files) == if failsLate then old((View(), dir.files)) else Store(old(View()), old(dir.files), message)
    {
      responses := [true];
      if failsLate {
        responses := responses + [false];
        return;
      }
      entries := entries + [Entry(nextEntry, message)];
      nextEntry := nextEntry + 1;
      Save();
    }

    /** The process is gone; its session directory stays. */
    method Shutdown()
      modifies this`alive
      ensures !alive
    {
      alive := false;
    }
  }
}
