/** The classes that carry out the operations: files that change in place, the JSONL store on
    top of them, the importer, and the in-memory manager. */
module SessionFiles {
  import opened Chat
  import opened SessionStore
  import opened Migration

  /** The sessions directory. `journal` is every file write so far, in order. */
  class FileSystem {
    var logs: map<string, seq<Line>>
    var metas: map<string, Meta>
    var dir: seq<Entry>
    ghost var journal: seq<Write>

    ghost function Snapshot(): Disk
      reads this
    {
      Disk(logs, metas, dir)
    }

    method PutMeta(file: string, meta: Meta)
      modifies this
      ensures Snapshot() == Apply(old(Snapshot()), Write.PutMeta(file, meta))
      ensures journal == old(journal) + [Write.PutMeta(file, meta)]
    {
      metas := metas[file := meta];
      journal := journal + [Write.PutMeta(file, meta)];
    }

    method PutLog(file: string, lines: seq<Line>)
      modifies this
      ensures Snapshot() == Apply(old(Snapshot()), Write.PutLog(file, lines))
      ensures journal == old(journal) + [Write.PutLog(file, lines)]
    {
      logs := logs[file := lines];
      journal := journal + [Write.PutLog(file, lines)];
    }

    method AppendLine(file: string, line: Line)
      modifies this
      ensures Snapshot() == Apply(old(Snapshot()), Append(file, line))
      ensures journal == old(journal) + [Append(file, line)]
    {
      logs := logs[file := (if file in logs then logs[file] else []) + [line]];
      journal := journal + [Append(file, line)];
    }

    method RenameEntry(i: nat)
      requires i < |dir|
      modifies this
      ensures Snapshot() == Apply(old(Snapshot()), Rename(i))
      ensures journal == old(journal) + [Rename(i)]
    {
      dir := dir[i := dir[i].(name := dir[i].name + ".migrated")];
      journal := journal + [Rename(i)];
    }
  }

  /** Every method makes exactly the writes of its operation, in their order; so the disk a crash
      leaves behind is one of the states Crash describes. */
  class JSONLStore {
    const fs: FileSystem

    constructor (fs: FileSystem)
      ensures this.fs == fs
    {
      this.fs := fs;
    }

    ghost predicate Did(before: Disk, journal: seq<Write>, key: string, op: Op)
      reads fs
    {
      && fs.Snapshot() == Do(before, key, op)
      && fs.journal == journal + Writes(before, key, op)
    }

    method ReadMetaFile(key: string) returns (meta: Meta)
      ensures meta == ReadMeta(fs.Snapshot(), key)
    {
      var file := SanitizeKey(key);
      meta := if file in fs.metas then fs.metas[file] else Meta(key, "", 0, 0);
    }

    method ReadMessages(file: string, skip: nat) returns (msgs: seq<Message>)
      ensures msgs == Decode(Log(fs.Snapshot(), file), skip)
    {
      msgs := [];
      var lines := if file in fs.logs then fs.logs[file] else [];
      var lineNum := 0;
      ghost var from := if skip <= |lines| then skip else |lines|;
      while lineNum < |lines|
        invariant lineNum <= |lines|
        invariant lineNum <= from ==> msgs == []
        invariant Decode(lines, from) == msgs + Decode(lines, if lineNum <= from then from else lineNum)
      {
        lineNum := lineNum + 1;
        if lineNum <= skip {
          continue;
        }
        match lines[lineNum - 1] {
          case Record(m) => msgs := msgs + [m];
          case Corrupt =>
        }
      }
    }

    method CountLines(file: string) returns (n: nat)
      ensures n == |Log(fs.Snapshot(), file)|
    {
      n := 0;
      var lines := if file in fs.logs then fs.logs[file] else [];
      while n < |lines|
        invariant n <= |lines|
      {
        n := n + 1;
      }
    }

    method RewriteJSONL(file: string, msgs: seq<Message>)
      modifies fs
      ensures fs.Snapshot() == Apply(old(fs.Snapshot()), PutLog(file, Encode(msgs)))
      ensures fs.journal == old(fs.journal) + [PutLog(file, Encode(msgs))]
    {
      var buf: seq<Line> := [];
      var i := 0;
      while i < |msgs|
        invariant i == |buf| <= |msgs|
        invariant forall k | 0 <= k < i :: buf[k] == Record(msgs[k])
      {
        buf := buf + [Record(msgs[i])];
        i := i + 1;
      }
      assert buf == Encode(msgs);
      fs.PutLog(file, buf);
    }

    method AddMsg(key: string, msg: Message)
      modifies fs
      ensures Did(old(fs.Snapshot()), old(fs.journal), key, Add(msg))
    {
      DoStates(fs.Snapshot(), key, Add(msg));
      fs.AppendLine(SanitizeKey(key), Record(msg));
      var meta := ReadMetaFile(key);
      fs.PutMeta(SanitizeKey(key), meta.(count := meta.count + 1));
    }

    method GetHistory(key: string) returns (msgs: seq<Message>)
      ensures msgs == History(fs.Snapshot(), key)
    {
      var meta := ReadMetaFile(key);
      msgs := ReadMessages(SanitizeKey(key), meta.skip);
    }

    method GetSummary(key: string) returns (summary: string)
      ensures summary == Summary(fs.Snapshot(), key)
    {
      var meta := ReadMetaFile(key);
      summary := meta.summary;
    }

    method PutSummary(key: string, summary: string)
      modifies fs
      ensures Did(old(fs.Snapshot()), old(fs.journal), key, SetSummary(summary))
    {
      DoStates(fs.Snapshot(), key, SetSummary(summary));
      var meta := ReadMetaFile(key);
      fs.PutMeta(SanitizeKey(key), meta.(summary := summary));
    }

    method TruncateHistory(key: string, keepLast: int)
      modifies fs
      ensures Did(old(fs.Snapshot()), old(fs.journal), key, Truncate(keepLast))
    {
      DoStates(fs.Snapshot(), key, Truncate(keepLast));
      var meta := ReadMetaFile(key);
      var n := CountLines(SanitizeKey(key));
      meta := meta.(count := n);
      if keepLast <= 0 {
        meta := meta.(skip := meta.count);
      } else {
        var effective := meta.count - meta.skip;
        if keepLast < effective {
          meta := meta.(skip := meta.count - keepLast);
        }
      }
      fs.PutMeta(SanitizeKey(key), meta);
    }

    method PutHistory(key: string, history: seq<Message>)
      modifies fs
      ensures Did(old(fs.Snapshot()), old(fs.journal), key, SetHistory(history))
    {
      DoStates(fs.Snapshot(), key, SetHistory(history));
      var meta := ReadMetaFile(key);
      fs.PutMeta(SanitizeKey(key), meta.(skip := 0, count := |history|));
      RewriteJSONL(SanitizeKey(key), history);
    }

    method CompactLog(key: string)
      modifies fs
      ensures Did(old(fs.Snapshot()), old(fs.journal), key, Compact)
    {
      DoStates(fs.Snapshot(), key, Compact);
      var meta := ReadMetaFile(key);
      if meta.skip == 0 {
        return;
      }
      var active := ReadMessages(SanitizeKey(key), meta.skip);
      fs.PutMeta(SanitizeKey(key), meta.(skip := 0, count := |active|));
      RewriteJSONL(SanitizeKey(key), active);
    }

    /** Returns the number of sessions imported: one for every entry that was pending. */
    method MigrateFromJSON() returns (migrated: nat)
      modifies fs
      ensures migrated == SnapshotCount(old(fs.dir))
      ensures fs.Snapshot() == Migrate(old(fs.Snapshot()), 0)
      ensures fs.journal == old(fs.journal) + Plan(old(fs.Snapshot()), 0)
    {
      hide Importing, Migrate, Plan, EntryWrites, ApplyAll, SnapshotCount, IsSnapshot;
      migrated := 0;
      var entries := fs.dir;
      var i := 0;
      ImportStart(fs.Snapshot(), fs.journal);
      while i < |entries|
        invariant i <= |entries|
        invariant Importing(old(fs.Snapshot()), old(fs.journal), fs.Snapshot(), fs.journal, entries, migrated, i)
      {
        ImportStep(old(fs.Snapshot()), old(fs.journal), fs.Snapshot(), fs.journal, entries, migrated, i);
        var imported := ImportEntry(i, entries[i]);
        if imported {
          migrated := migrated + 1;
        }
        i := i + 1;
      }
      ImportEnd(old(fs.Snapshot()), old(fs.journal), fs.Snapshot(), fs.journal, entries, migrated);
    }

    static function SnapshotCount(entries: seq<Entry>): nat {
      if entries == [] then 0
      else SnapshotCount(entries[..|entries| - 1]) + if IsSnapshot(entries[|entries| - 1]) then 1 else 0
    }

    /** The first i entries are done and counted: what remains leads to the same files by the same writes. */
    static ghost predicate Importing(before: Disk, journal: seq<Write>, now: Disk, written: seq<Write>,
                                     entries: seq<Entry>, migrated: nat, i: nat) {
      && i <= |now.dir| == |entries| && (forall n | i <= n < |entries| :: now.dir[n] == entries[n])
      && migrated == SnapshotCount(entries[..i])
      && Migrate(now, i) == Migrate(before, 0)
      && written + Plan(now, i) == journal + Plan(before, 0)
    }

    static lemma {:induction false} ImportStart(before: Disk, journal: seq<Write>)
      ensures Importing(before, journal, before, journal, before.dir, 0, 0)
    {
      assert SnapshotCount(before.dir[..0]) == 0;
    }

    static lemma {:induction false} ImportStep(before: Disk, journal: seq<Write>, now: Disk, written: seq<Write>,
                                               entries: seq<Entry>, migrated: nat, i: nat)
      requires Importing(before, journal, now, written, entries, migrated, i) && i < |entries|
      ensures i < |now.dir| && now.dir[i] == entries[i]
      ensures Importing(before, journal, ApplyAll(now, EntryWrites(now, i)), written + EntryWrites(now, i), entries,
                        migrated + if IsSnapshot(entries[i]) then 1 else 0, i + 1)
    {
      hide Plan, Migrate, EntryWrites, ApplyAll, IsSnapshot;
      OthersStay(now, i);
      MigrateStep(now, i);
      PlanStep(now, i);
      Reassociate(written, EntryWrites(now, i), Plan(ApplyAll(now, EntryWrites(now, i)), i + 1));
      assert entries[..i + 1][..i] == entries[..i];
    }

    static lemma {:induction false} ImportEnd(before: Disk, journal: seq<Write>, now: Disk, written: seq<Write>,
                                              entries: seq<Entry>, migrated: nat)
      requires Importing(before, journal, now, written, entries, migrated, |entries|)
      ensures now == Migrate(before, 0) && written == journal + Plan(before, 0) && migrated == SnapshotCount(entries)
    {
      assert Plan(now, |entries|) == [];
      assert entries[..|entries|] == entries;
    }

    static lemma {:induction false} Reassociate(a: seq<Write>, b: seq<Write>, c: seq<Write>)
      ensures a + b + c == a + (b + c)
    {}

    method ImportEntry(i: nat, entry: Entry) returns (imported: bool)
      requires i < |fs.dir| && fs.dir[i] == entry
      modifies fs
      ensures imported == IsSnapshot(entry)
      ensures fs.Snapshot() == ApplyAll(old(fs.Snapshot()), EntryWrites(old(fs.Snapshot()), i))
      ensures fs.journal == old(fs.journal) + EntryWrites(old(fs.Snapshot()), i)
    {
      ghost var before := fs.Snapshot();
      PendingIsSnapshot(entry);
      hide IsSnapshot, Pending, KeyOf;
      imported := Pending(entry);
      if !imported {
        return;
      }
      var key := KeyOf(entry);
      PutHistory(key, entry.snapshot.value.messages);
      if entry.snapshot.value.summary != "" {
        PutSummary(key, entry.snapshot.value.summary);
      }
      ghost var ws := Writes(before, key, SetHistory(entry.snapshot.value.messages));
      ghost var vs := Writes(ApplyAll(before, ws), key, SetSummary(entry.snapshot.value.summary));
      ApplySplit(before, ws, vs);
      assert fs.Snapshot() == ApplyAll(before, ImportWrites(before, entry));
      DirLength(before, ImportWrites(before, entry));
      fs.RenameEntry(i);
      ApplySplit(before, ImportWrites(before, entry), [Rename(i)]);
      ApplyOne(ApplyAll(before, ImportWrites(before, entry)), Rename(i));
    }
  }

  /** The in-memory manager. */
  class SessionManager {
    var sessions: map<string, Session>

    constructor ()
      ensures sessions == map[]
    {
      sessions := map[];
    }

    method AddFullMessage(key: string, msg: Message)
      modifies this
      ensures sessions == PlainDo(old(sessions), Call(key, Add(msg)))
    {
      var session := Session([], "");
      if key in sessions {
        session := sessions[key];
      }
      sessions := sessions[key := session.(messages := session.messages + [msg])];
    }

    method GetHistory(key: string) returns (history: seq<Message>)
      ensures history == PlainHistory(sessions, key)
    {
      if key !in sessions {
        return [];
      }
      return sessions[key].messages;
    }

    method PutHistory(key: string, history: seq<Message>)
      modifies this
      ensures sessions == PlainDo(old(sessions), Call(key, SetHistory(history)))
    {
      if key in sessions {
        sessions := sessions[key := sessions[key].(messages := history)];
      }
    }

    method PutSummary(key: string, summary: string)
      modifies this
      ensures sessions == PlainDo(old(sessions), Call(key, SetSummary(summary)))
    {
      if key in sessions {
        sessions := sessions[key := sessions[key].(summary := summary)];
      }
    }

    method TruncateHistory(key: string, keepLast: int)
      modifies this
      ensures sessions == PlainDo(old(sessions), Call(key, Truncate(keepLast)))
    {
      if key !in sessions {
        return;
      }
      var session := sessions[key];
      if keepLast <= 0 {
        sessions := sessions[key := session.(messages := [])];
        return;
      }
      if |session.messages| <= keepLast {
        assert sessions[key := session] == sessions;
        return;
      }
      sessions := sessions[key := session.(messages := session.messages[|session.messages| - keepLast..])];
    }
  }
}
