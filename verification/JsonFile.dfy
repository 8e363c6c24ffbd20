/** A memory kept in a JSON file (memory/jsonfile/memory.go): an append-only log that hands
    out absolute cursors, stores snapshots by compare-and-swap, may prune what a snapshot
    stands for, and rolls back when writing the file fails. */
module JsonFile {
  import opened Messages
  import opened SnapLog

  /** What the memory holds; `offset` counts the messages pruned before `messages`. */
  datatype Log = Log(messages: seq<Message>, offset: nat, snapshot: Option<Snapshot>)

  const EMPTY_LOG := Log([], 0, None)
  const FILE_VERSION := 2

  /** The content of the file: none, a plain array, or the versioned object. */
  datatype File =
    | Missing
    | Plain(messages: seq<Message>)
    | Object(version: int, offset: nat, messages: seq<Message>, snapshot: Option<Snapshot>)

  function Encode(log: Log): File {
    if log.snapshot.None? && log.offset == 0 then Plain(log.messages)
    else Object(FILE_VERSION, log.offset, log.messages, log.snapshot)
  }

  /** None for a version this code does not know. */
  function Decode(file: File): Option<Log> {
    match file
    case Missing => Some(EMPTY_LOG)
    case Plain(messages) => Some(Log(messages, 0, None))
    case Object(version, offset, messages, snapshot) =>
      if version == FILE_VERSION then Some(Log(messages, offset, snapshot)) else None
  }

  /** A written file is read back, by this code, and by code that knows plain arrays alone as long as
      nothing was summarized or pruned. */
  lemma DecodeOfEncode(log: Log)
    ensures Decode(Encode(log)) == Some(log)
    ensures log.snapshot == None && log.offset == 0 <==> Encode(log) == Plain(log.messages)
    ensures Encode(log).Object? ==> Encode(log).version == 2
  {
  }

  datatype Error = PersistFailed | Refused(why: CutoffResult) | SnapshotsUnsupported

  /** A call, with whether its write of the file succeeds. */
  datatype Op =
    | Save(msgs: seq<Message>, persisted: bool)
    | SaveSnapshot(s: Snapshot, upTo: Cursor, prev: Option<Snapshot>, persisted: bool)
    | Clear(persisted: bool)
    | LoadSnapshot
    | Retrieve

  datatype Out =
    | Done
    | Failed(error: Error)
    | Loaded(snapshot: Option<Snapshot>, tail: seq<LoggedMessage>)
    | Retrieved(msgs: seq<Message>)

  datatype State = State(log: Log, file: File)

  function RetrievedFrom(log: Log): seq<Message> {
    match log.snapshot
    case None => log.messages
    case Some(s) => ViewOf(log.messages, log.offset, s)
  }

  /** The log once a snapshot up to `pos` is stored. */
  function WithSnapshot(log: Log, prune: bool, s: Snapshot, upTo: Cursor, pos: nat): Log
    requires pos < log.offset + |log.messages|
  {
    var stored := Some(s.(upTo := upTo));
    if prune && pos >= log.offset then Log(log.messages[pos + 1 - log.offset..], pos + 1, stored)
    else log.(snapshot := stored)
  }

  function Step(st: State, prune: bool, op: Op): (State, Out) {
    match op
    case Save(msgs, persisted) =>
      var log := st.log.(messages := st.log.messages + msgs);
      if persisted then (State(log, Encode(log)), Done) else (st, Failed(PersistFailed))
    case SaveSnapshot(s, upTo, prev, persisted) =>
      var cut := Cutoff(st.log.snapshot, prev, upTo, st.log.offset + |st.log.messages|);
      if !cut.Cut? then (st, Failed(Refused(cut)))
      else
        var log := WithSnapshot(st.log, prune, s, upTo, cut.pos);
        if persisted then (State(log, Encode(log)), Done) else (st, Failed(PersistFailed))
    case Clear(persisted) =>
      if persisted then (State(EMPTY_LOG, Encode(EMPTY_LOG)), Done)
      else (State(EMPTY_LOG, st.file), Failed(PersistFailed))
    case LoadSnapshot => (st, Loaded(st.log.snapshot, TailOf(st.log.messages, st.log.offset, st.log.snapshot)))
    case Retrieve => (st, Retrieved(RetrievedFrom(st.log)))
  }

  /** `log` shows the end of `full`, every message saved since the log was last cleared: it
      was pruned no further than its snapshot reaches, and the snapshot no further than the log. */
  ghost predicate Shows(log: Log, full: seq<Message>) {
    && log.offset <= Covered(log.snapshot) <= |full|
    && log.messages == full[log.offset..]
  }

  class Memory {
    var messages: seq<Message>
    var offset: nat
    var snapshot: Option<Snapshot>
    const prune: bool
    /** Whether the memory keeps snapshots. */
    const snapshots: bool
    var file: File
    /** Whether the n-th write of the file succeeds, and how many were tried. */
    const writes: nat -> bool
    var tried: nat
    /** Every message saved since the log was last cleared. */
    ghost var full: seq<Message>

    ghost function Value(): State
      reads this
    {
      State(Log(messages, offset, snapshot), file)
    }

    ghost predicate Valid()
      reads this
    {
      Shows(Value().log, full) && (!snapshots ==> snapshot == None)
    }

    /** Opens the memory over what the file holds. `full` names what was saved before; the memory
        is valid when the file fits it. */
    constructor Open(file: File, prune: bool, snapshots: bool, writes: nat -> bool, ghost full: seq<Message>)
      requires Decode(file).Some?
      ensures Value() == State(Decode(file).value, file) && this.full == full
      ensures Valid() <==> Shows(Decode(file).value, full) && (!snapshots ==> Decode(file).value.snapshot == None)
      ensures this.prune == prune && this.snapshots == snapshots && this.writes == writes && tried == 0
    {
      var log := Decode(file).value;
      this.file, this.prune, this.snapshots, this.writes := file, prune, snapshots, writes;
      messages, offset, snapshot := log.messages, log.offset, log.snapshot;
      tried := 0;
      this.full := full;
    }

    method Persist() returns (ok: bool)
      modifies this`file, this`tried
      ensures ok == writes(old(tried)) && tried == old(tried) + 1
      ensures file == if ok then Encode(Value().log) else old(file)
    {
      ok := writes(tried);
      tried := tried + 1;
      if ok {
        file := Encode(Log(messages, offset, snapshot));
      }
    }

    method Save(msgs: seq<Message>) returns (ok: bool)
      requires Valid()
      modifies this
      ensures Valid() && ok == writes(old(tried)) && tried == old(tried) + 1
      ensures (Value(), if ok then Done else Failed(PersistFailed)) == Step(old(Value()), prune, Op.Save(msgs, ok))
      ensures full == (if ok then old(full) + msgs else old(full)) && snapshot == old(snapshot)
    {
      var before := messages;
      messages := messages + msgs;
      ok := Persist();
      if ok {
        full := full + msgs;
      } else {
        messages := before;
      }
    }

    method Retrieve() returns (msgs: seq<Message>)
      requires Valid()
      ensures Out.Retrieved(msgs) == Step(Value(), prune, Op.Retrieve).1
      ensures snapshot.None? ==> msgs == full
    {
      if snapshot.Some? {
        msgs := View(messages, offset, snapshot.value);
      } else {
        msgs := messages;
      }
    }

    method LoadSnapshot() returns (supported: bool, s: Option<Snapshot>, tail: seq<LoggedMessage>)
      requires Valid()
      ensures supported == snapshots
      ensures supported ==> Loaded(s, tail) == Step(Value(), prune, Op.LoadSnapshot).1
      ensures supported ==> s == snapshot && tail == TailOf(full, 0, s)
    {
      if !snapshots {
        return false, None, [];
      }
      supported, s := true, snapshot;
      tail := Tail(messages, offset, snapshot);
      TailOfPruned(full, offset, snapshot);
    }

    method SaveSnapshot(s: Snapshot, upTo: Cursor, prev: Option<Snapshot>) returns (out: Out)
      requires Valid()
      modifies this
      ensures Valid() && full == old(full)
      ensures !snapshots ==> out == Failed(SnapshotsUnsupported) && Value() == old(Value())
      ensures snapshots ==>
                (Value(), out) == Step(old(Value()), prune, Op.SaveSnapshot(s, upTo, prev, writes(old(tried))))
      ensures out == Done <==>
              snapshots && Cutoff(old(snapshot), prev, upTo, |full|).Cut? && writes(old(tried))
      ensures snapshot == if out == Done then Some(s.(upTo := upTo)) else old(snapshot)
    {
      hide Encode, ViewOf, TailOf, RetrievedFrom;
      if !snapshots {
        return Failed(SnapshotsUnsupported);
      }
      var cut := Cutoff(snapshot, prev, upTo, offset + |messages|);
      if !cut.Cut? {
        return Failed(Refused(cut));
      }
      CutoffAccepts(snapshot, prev, upTo, offset + |messages|);
      var oldMessages, oldOffset, oldSnapshot := messages, offset, snapshot;
      snapshot := Some(s.(upTo := upTo));
      if prune && cut.pos >= offset {
        assert full[offset..][cut.pos + 1 - offset..] == full[cut.pos + 1..];
        messages := messages[cut.pos + 1 - offset..];
        offset := cut.pos + 1;
      }
      var ok := Persist();
      if ok {
        out := Done;
      } else {
        messages, offset, snapshot := oldMessages, oldOffset, oldSnapshot;
        out := Failed(PersistFailed);
      }
    }

    method Clear() returns (ok: bool)
      modifies this
      ensures Valid() && full == [] && ok == writes(old(tried)) && tried == old(tried) + 1
      ensures (Value(), if ok then Done else Failed(PersistFailed)) == Step(old(Value()), prune, Op.Clear(ok))
    {
      messages, offset, snapshot := [], 0, None;
      full := [];
      ok := Persist();
    }
  }

  /** Opens a memory, unless the file has a version this code does not know. */
  method New(file: File, prune: bool, snapshots: bool, writes: nat -> bool, ghost full: seq<Message>)
    returns (m: Memory?)
    ensures m == null <==> file.Object? && file.version != FILE_VERSION
    ensures m != null ==>
              && fresh(m) && m.full == full && Decode(file) == Some(m.Value().log) && m.Value().file == file
              && m.prune == prune && m.snapshots == snapshots && m.writes == writes && m.tried == 0
              && (m.Valid() <==> Shows(m.Value().log, full) && (!snapshots ==> m.snapshot == None))
  {
    if Decode(file).None? {
      return null;
    }
    m := new Memory.Open(file, prune, snapshots, writes, full);
  }
}
