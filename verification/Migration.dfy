/**
  Importing the older store's snapshots, as file writes.
  The importer may be stopped after any single write and started again.
*/
module Migration {
  import opened Chat
  import opened SessionStore

  // ---------------------------------------------------------------- the importer as writes

  predicate HasSuffix(s: string, suffix: string)
    ensures HasSuffix(s, suffix) ==> |suffix| <= |s|
    decreases |suffix|
  {
    || suffix == ""
    || (s != "" && s[|s| - 1] == suffix[|suffix| - 1] && HasSuffix(s[..|s| - 1], suffix[..|suffix| - 1]))
  }

  function TrimSuffix(s: string, suffix: string): string {
    if HasSuffix(s, suffix) then s[..|s| - |suffix|] else s
  }

  /** A readable snapshot that has not been imported yet. */
  predicate Pending(e: Entry) {
    && !e.isDir
    && HasSuffix(e.name, ".json") && !HasSuffix(e.name, ".meta.json") && !HasSuffix(e.name, ".migrated")
    && e.snapshot.Some?
  }

  function KeyOf(e: Entry): string
    requires e.snapshot.Some?
  {
    if e.snapshot.value.key == "" then TrimSuffix(e.name, ".json") else e.snapshot.value.key
  }

  /** The writes that put one snapshot into the store. */
  function ImportWrites(d: Disk, e: Entry): seq<Write>
    requires e.snapshot.Some?
  {
    var key, snap := KeyOf(e), e.snapshot.value;
    var ws := Writes(d, key, SetHistory(snap.messages));
    if snap.summary == "" then ws
    else ws + Writes(ApplyAll(d, ws), key, SetSummary(snap.summary))
  }

  function EntryWrites(d: Disk, i: nat): seq<Write>
    requires i < |d.dir|
  {
    if Pending(d.dir[i]) then ImportWrites(d, d.dir[i]) + [Rename(i)] else []
  }

  /** All writes of the importer from entry i on. */
  function Plan(d: Disk, i: nat): seq<Write>
    requires i <= |d.dir|
    decreases |d.dir| - i
  {
    if i == |d.dir| then []
    else
      var ws := EntryWrites(d, i);
      DirLength(d, ws);
      ws + Plan(ApplyAll(d, ws), i + 1)
  }

  function Migrate(d: Disk, i: nat): Disk
    requires i <= |d.dir|
  {
    ApplyAll(d, Plan(d, i))
  }

  lemma {:induction false} DirLength(d: Disk, ws: seq<Write>)
    ensures |ApplyAll(d, ws).dir| == |d.dir|
    decreases |ws|
  {
    if ws != [] { DirLength(Apply(d, ws[0]), ws[1..]); }
  }

  lemma {:induction false} ApplySplit(d: Disk, v: seq<Write>, w: seq<Write>)
    ensures ApplyAll(d, v + w) == ApplyAll(ApplyAll(d, v), w)
    decreases |v|
  {
    if v == [] {
      assert v + w == w;
    } else {
      ApplySplit(Apply(d, v[0]), v[1..], w);
      assert (v + w)[1..] == v[1..] + w;
    }
  }

  // ---------------------------------------------------------------- importing twice

  /** The files of one session after its snapshot has been put in. */
  function Imported(d: Disk, e: Entry): Disk
    requires e.snapshot.Some?
  {
    var key, snap := KeyOf(e), e.snapshot.value;
    var file, meta := SanitizeKey(key), ReadMeta(d, key);
    var summary := if snap.summary == "" then meta.summary else snap.summary;
    d.(metas := d.metas[file := Meta(meta.key, summary, 0, |snap.messages|)],
       logs := d.logs[file := Encode(snap.messages)])
  }

  lemma {:induction false} ImportGives(d: Disk, e: Entry)
    requires e.snapshot.Some?
    ensures ApplyAll(d, ImportWrites(d, e)) == Imported(d, e)
  {
    var key, snap := KeyOf(e), e.snapshot.value;
    var ws := Writes(d, key, SetHistory(snap.messages));
    var mid := ApplyAll(d, ws);
    DoStates(d, key, SetHistory(snap.messages));
    if snap.summary != "" {
      var vs := Writes(mid, key, SetSummary(snap.summary));
      ApplySplit(d, ws, vs);
      DoStates(mid, key, SetSummary(snap.summary));
      assert ReadMeta(mid, key) == ReadMeta(d, key).(skip := 0, count := |snap.messages|);
    }
  }

  /** Where an import that is cut short has got to makes no difference to the next attempt. */
  lemma {:induction false} ImportAgain(d: Disk, e: Entry, k: nat)
    requires e.snapshot.Some? && k <= |ImportWrites(d, e)|
    ensures var partial := ApplyAll(d, ImportWrites(d, e)[..k]);
            partial.dir == d.dir && Imported(partial, e) == Imported(d, e)
  {
    var key, snap := KeyOf(e), e.snapshot.value;
    var op := SetHistory(snap.messages);
    var ws := Writes(d, key, op);
    if k <= 2 {
      assert ImportWrites(d, e)[..k] == ws[..k];
      CrashStates(d, key, op, k);
      ReimportAfterHistory(d, e, k);
    } else {
      assert ImportWrites(d, e)[..k] == ImportWrites(d, e);
      ImportGives(d, e);
    }
  }

  lemma {:induction false} ReimportAfterHistory(d: Disk, e: Entry, k: nat)
    requires e.snapshot.Some? && k <= 2
    ensures var partial := Crash(d, KeyOf(e), SetHistory(e.snapshot.value.messages), k);
            partial.dir == d.dir && Imported(partial, e) == Imported(d, e)
  {
    var key, op := KeyOf(e), SetHistory(e.snapshot.value.messages);
    var file := SanitizeKey(key);
    var partial := Crash(d, key, op, k);
    CrashStates(d, key, op, k);
    assert ReadMeta(partial, key).summary == ReadMeta(d, key).summary && ReadMeta(partial, key).key == ReadMeta(d, key).key;
    var a, b := Imported(partial, e), Imported(d, e);
    assert a.metas == b.metas && a.logs == b.logs;
  }

  function Renamed(e: Entry): (r: Entry)
    ensures !Pending(r)
  {
    e.(name := e.name + ".migrated")
  }

  /** One entry's writes, as a whole. */
  lemma {:induction false} EntryGives(d: Disk, i: nat)
    requires i < |d.dir| && Pending(d.dir[i])
    ensures ApplyAll(d, EntryWrites(d, i))
            == Imported(d, d.dir[i]).(dir := d.dir[i := Renamed(d.dir[i])])
  {
    var ws := ImportWrites(d, d.dir[i]);
    ApplySplit(d, ws, [Rename(i)]);
    ImportGives(d, d.dir[i]);
    ApplyOne(ApplyAll(d, ws), Rename(i));
  }

  lemma {:induction false} MigrateStep(d: Disk, i: nat)
    requires i < |d.dir|
    ensures |ApplyAll(d, EntryWrites(d, i)).dir| == |d.dir|
    ensures Migrate(d, i) == Migrate(ApplyAll(d, EntryWrites(d, i)), i + 1)
  {
    DirLength(d, EntryWrites(d, i));
    ApplySplit(d, EntryWrites(d, i), Plan(ApplyAll(d, EntryWrites(d, i)), i + 1));
  }

  lemma {:induction false} PlanStep(d: Disk, i: nat)
    requires i < |d.dir|
    ensures |ApplyAll(d, EntryWrites(d, i)).dir| == |d.dir|
    ensures Plan(d, i) == EntryWrites(d, i) + Plan(ApplyAll(d, EntryWrites(d, i)), i + 1)
  {
    DirLength(d, EntryWrites(d, i));
  }

  /** Entries already dealt with are passed over by the next attempt. */
  lemma {:induction false} PassOver(d: Disk, i: nat, j: nat)
    requires i <= j <= |d.dir| && forall n | i <= n < j :: !Pending(d.dir[n])
    ensures Migrate(d, i) == Migrate(d, j)
    decreases j - i
  {
    if i < j {
      PassOver(d, i + 1, j);
      assert EntryWrites(d, i) == [];
      MigrateStep(d, i);
    }
  }

  /** What was done before entry i is still there, and going on from it ends the same. */
  ghost predicate Resumes(d: Disk, stopped: Disk, i: nat) {
    && i <= |stopped.dir| == |d.dir|
    && (forall n | 0 <= n < i :: stopped.dir[n] == d.dir[n])
    && Migrate(stopped, i) == Migrate(d, i)
  }

  /** Stopped after k writes, in or behind entry i, and then run from entry i on. */
  lemma {:induction false} ResumeFrom(d: Disk, i: nat, k: nat)
    requires i <= |d.dir| && k <= |Plan(d, i)|
    ensures Resumes(d, ApplyAll(d, Plan(d, i)[..k]), i)
    decreases |d.dir| - i, 1
  {
    if i == |d.dir| {
      assert Plan(d, i)[..k] == [];
    } else {
      var ws := EntryWrites(d, i);
      if k < |ws| {
        assert Plan(d, i)[..k] == ImportWrites(d, d.dir[i])[..k];
        ResumeWithin(d, i, k);
      } else {
        DirLength(d, ws);
        ResumeLater(d, i, k);
      }
    }
  }

  lemma {:induction false} ResumeLater(d: Disk, i: nat, k: nat)
    requires i < |d.dir| && |EntryWrites(d, i)| <= k <= |Plan(d, i)|
    ensures Resumes(d, ApplyAll(d, Plan(d, i)[..k]), i)
    decreases |d.dir| - i, 0
  {
    hide Resumes, Migrate, EntryWrites, ApplyAll, Plan;
    var ws := EntryWrites(d, i);
    var next := ApplyAll(d, ws);
    DirLength(d, ws);
    PlanStep(d, i);
    var vs := Plan(next, i + 1)[..k - |ws|];
    TakeBehind(ws, Plan(next, i + 1), k);
    ApplySplit(d, ws, vs);
    ResumeFrom(next, i + 1, k - |ws|);
    ResumeThrough(d, i, ApplyAll(next, vs));
  }

  /** From entry i + 1 to entry i. */
  lemma {:induction false} ResumeThrough(d: Disk, i: nat, stopped: Disk)
    requires i < |d.dir| && Resumes(ApplyAll(d, EntryWrites(d, i)), stopped, i + 1)
    ensures Resumes(d, stopped, i)
  {
    var next := ApplyAll(d, EntryWrites(d, i));
    MigrateStep(d, i);
    OthersStay(d, i);
    assert stopped.dir[i] == next.dir[i];
    ResumeBehind(d, i, stopped);
    forall n | 0 <= n < i ensures stopped.dir[n] == d.dir[n] { assert stopped.dir[n] == next.dir[n]; }
  }

  lemma {:induction false} TakeBehind(ws: seq<Write>, rest: seq<Write>, k: nat)
    requires |ws| <= k <= |ws| + |rest|
    ensures (ws + rest)[..k] == ws + rest[..k - |ws|]
  {}

  lemma {:induction false} OthersStay(d: Disk, i: nat)
    requires i < |d.dir|
    ensures var next := ApplyAll(d, EntryWrites(d, i));
            |next.dir| == |d.dir| && forall n | 0 <= n < |d.dir| && n != i :: next.dir[n] == d.dir[n]
  {
    if Pending(d.dir[i]) { EntryGives(d, i); }
  }

  lemma {:induction false} ResumeWithin(d: Disk, i: nat, k: nat)
    requires i < |d.dir| && Pending(d.dir[i]) && k <= |ImportWrites(d, d.dir[i])|
    ensures var stopped := ApplyAll(d, ImportWrites(d, d.dir[i])[..k]);
            stopped.dir == d.dir && Migrate(stopped, i) == Migrate(d, i)
  {
    var stopped := ApplyAll(d, ImportWrites(d, d.dir[i])[..k]);
    ImportAgain(d, d.dir[i], k);
    EntryGives(d, i);
    EntryGives(stopped, i);
    MigrateStep(d, i);
    MigrateStep(stopped, i);
  }

  lemma {:induction false} ResumeBehind(d: Disk, i: nat, stopped: Disk)
    requires i < |d.dir| == |stopped.dir| == |ApplyAll(d, EntryWrites(d, i)).dir|
    requires stopped.dir[i] == ApplyAll(d, EntryWrites(d, i)).dir[i]
    ensures Migrate(stopped, i) == Migrate(stopped, i + 1)
  {
    if Pending(d.dir[i]) { EntryGives(d, i); }
    PassOver(stopped, i, i + 1);
  }

  /** Stopping the importer after any single file write and starting it again ends with the same
      files as one uninterrupted run. */
  lemma {:induction false} RestartIsHarmless(d: Disk, k: nat)
    requires k <= |Plan(d, 0)|
    ensures |ApplyAll(d, Plan(d, 0)[..k]).dir| == |d.dir|
    ensures Migrate(ApplyAll(d, Plan(d, 0)[..k]), 0) == Migrate(d, 0)
  {
    ResumeFrom(d, 0, k);
  }

  // ---------------------------------------------------------------- what an import shows

  predicate EndsIn(name: string, suffix: string) {
    |suffix| <= |name| && name[|name| - |suffix|..] == suffix
  }

  /** A file that can be read and is named like a snapshot: not like the store's own metadata, nor like a
      snapshot that has been imported. */
  predicate IsSnapshot(e: Entry) {
    && !e.isDir && e.snapshot.Some? && EndsIn(e.name, ".json")
    && !EndsIn(e.name, ".meta.json") && !EndsIn(e.name, ".migrated")
  }

  /** The key in the file, or the name of the file without its extension. */
  predicate IsKeyOf(e: Entry, key: string)
    requires IsSnapshot(e)
  {
    if e.snapshot.value.key != "" then key == e.snapshot.value.key else e.name == key + ".json"
  }

  lemma {:induction false} SuffixIsEnd(s: string, suffix: string)
    ensures HasSuffix(s, suffix) <==> EndsIn(s, suffix)
    decreases |suffix|
  {
    if suffix != "" && s != "" {
      var t, u := s[..|s| - 1], suffix[..|suffix| - 1];
      SuffixIsEnd(t, u);
      if |suffix| <= |s| {
        var e := s[|s| - |suffix|..];
        assert e == t[|t| - |u|..] + [s[|s| - 1]];
        assert suffix == u + [suffix[|suffix| - 1]];
        assert e[..|u|] == t[|t| - |u|..] && suffix[..|u|] == u;
      }
    }
  }

  /** What the importer takes for pending are exactly those files, and it uses exactly that key. */
  lemma {:induction false} PendingIsSnapshot(e: Entry)
    ensures Pending(e) <==> IsSnapshot(e)
    ensures Pending(e) ==> forall key :: IsKeyOf(e, key) <==> key == KeyOf(e)
  {
    hide HasSuffix;
    SuffixIsEnd(e.name, ".json");
    SuffixIsEnd(e.name, ".meta.json");
    SuffixIsEnd(e.name, ".migrated");
    if Pending(e) {
      var x := e.name[..|e.name| - 5];
      assert e.name == x + ".json";
      forall key | e.name == key + ".json" ensures key == x { assert (key + ".json")[..|key|] == key; }
    }
  }

  /** A snapshot whose key has the same file as this one. */
  ghost predicate SameFile(e: Entry, key: string) {
    IsSnapshot(e) && exists own :: IsKeyOf(e, own) && SanitizeKey(own) == SanitizeKey(key)
  }

  lemma {:induction false} SameFileIs(e: Entry, key: string)
    ensures SameFile(e, key) <==> Pending(e) && SanitizeKey(KeyOf(e)) == SanitizeKey(key)
  {
    hide Pending, IsSnapshot, KeyOf;
    PendingIsSnapshot(e);
  }

  ghost predicate GivesSummary(e: Entry, key: string) { SameFile(e, key) && e.snapshot.value.summary != "" }

  /** The messages of the last of the entries from i on that bears the name, else h. */
  ghost function LastHistory(dir: seq<Entry>, key: string, i: nat, h: seq<Message>): seq<Message>
    requires i <= |dir|
    decreases |dir| - i
  {
    if i == |dir| then h
    else LastHistory(dir, key, i + 1, if SameFile(dir[i], key) then dir[i].snapshot.value.messages else h)
  }

  /** The summary of the last of them that has one, else s. */
  ghost function LastSummary(dir: seq<Entry>, key: string, i: nat, s: string): string
    requires i <= |dir|
    decreases |dir| - i
  {
    if i == |dir| then s
    else LastSummary(dir, key, i + 1, if GivesSummary(dir[i], key) then dir[i].snapshot.value.summary else s)
  }

  /** They depend on the entries from i on only. */
  lemma {:induction false} LastOfSameEntries(dir: seq<Entry>, other: seq<Entry>, key: string, i: nat,
                                            h: seq<Message>, s: string)
    requires i <= |dir| == |other| && forall n | i <= n < |dir| :: dir[n] == other[n]
    ensures LastHistory(dir, key, i, h) == LastHistory(other, key, i, h)
    ensures LastSummary(dir, key, i, s) == LastSummary(other, key, i, s)
    decreases |dir| - i
  {
    if i < |dir| {
      LastOfSameEntries(dir, other, key, i + 1, if SameFile(dir[i], key) then dir[i].snapshot.value.messages else h,
                        if GivesSummary(dir[i], key) then dir[i].snapshot.value.summary else s);
    }
  }

  /** What one entry does to a session: its own, or one that has the same file. */
  lemma {:induction false} EntryShows(d: Disk, i: nat, key: string)
    requires i < |d.dir|
    ensures var next := ApplyAll(d, EntryWrites(d, i));
      && History(next, key) == (if SameFile(d.dir[i], key) then d.dir[i].snapshot.value.messages else History(d, key))
      && Summary(next, key) == (if GivesSummary(d.dir[i], key) then d.dir[i].snapshot.value.summary else Summary(d, key))
  {
    SameFileIs(d.dir[i], key);
    hide SameFile;
    if Pending(d.dir[i]) {
      EntryGives(d, i);
      DecodeEncoded(d.dir[i].snapshot.value.messages, 0);
    }
  }

  /** What the importer leaves every session with. */
  lemma {:induction false} MigrateGives(d: Disk, i: nat, key: string)
    requires i <= |d.dir|
    ensures History(Migrate(d, i), key) == LastHistory(d.dir, key, i, History(d, key))
    ensures Summary(Migrate(d, i), key) == LastSummary(d.dir, key, i, Summary(d, key))
    decreases |d.dir| - i
  {
    hide History, Summary, SameFile, GivesSummary, ApplyAll, EntryWrites;
    if i < |d.dir| {
      MigrateStep(d, i);
      LastStep(d, i, key);
      MigrateGives(ApplyAll(d, EntryWrites(d, i)), i + 1, key);
    } else {
      NothingToMigrate(d);
    }
  }

  lemma {:induction false} NothingToMigrate(d: Disk)
    ensures Migrate(d, |d.dir|) == d
  {}

  lemma {:induction false} LastStep(d: Disk, i: nat, key: string)
    requires i < |d.dir|
    ensures var next := ApplyAll(d, EntryWrites(d, i));
      && |next.dir| == |d.dir|
      && LastHistory(d.dir, key, i, History(d, key)) == LastHistory(next.dir, key, i + 1, History(next, key))
      && LastSummary(d.dir, key, i, Summary(d, key)) == LastSummary(next.dir, key, i + 1, Summary(next, key))
  {
    hide History, Summary, SameFile, ApplyAll, EntryWrites;
    var next := ApplyAll(d, EntryWrites(d, i));
    OthersStay(d, i);
    EntryShows(d, i, key);
    LastOfSameEntries(next.dir, d.dir, key, i + 1, History(next, key), Summary(next, key));
  }

  lemma {:induction false} LastHistoryIs(dir: seq<Entry>, key: string, i: nat, j: nat, h: seq<Message>)
    requires i <= j < |dir| && SameFile(dir[j], key) && forall n | j < n < |dir| :: !SameFile(dir[n], key)
    ensures LastHistory(dir, key, i, h) == dir[j].snapshot.value.messages
    decreases j - i
  {
    if i < j {
      LastHistoryIs(dir, key, i + 1, j, if SameFile(dir[i], key) then dir[i].snapshot.value.messages else h);
    } else {
      NoHistoryLeft(dir, key, j + 1, dir[j].snapshot.value.messages);
    }
  }

  lemma {:induction false} LastSummaryIs(dir: seq<Entry>, key: string, i: nat, j: nat, s: string)
    requires i <= j < |dir| && GivesSummary(dir[j], key) && forall n | j < n < |dir| :: !GivesSummary(dir[n], key)
    ensures LastSummary(dir, key, i, s) == dir[j].snapshot.value.summary
    decreases j - i
  {
    if i < j {
      LastSummaryIs(dir, key, i + 1, j, if GivesSummary(dir[i], key) then dir[i].snapshot.value.summary else s);
    } else {
      NoSummaryLeft(dir, key, j + 1, dir[j].snapshot.value.summary);
    }
  }

  lemma {:induction false} NoHistoryLeft(dir: seq<Entry>, key: string, i: nat, h: seq<Message>)
    requires i <= |dir| && forall n | i <= n < |dir| :: !SameFile(dir[n], key)
    ensures LastHistory(dir, key, i, h) == h
    decreases |dir| - i
  {
    if i < |dir| { NoHistoryLeft(dir, key, i + 1, h); }
  }

  lemma {:induction false} NoSummaryLeft(dir: seq<Entry>, key: string, i: nat, s: string)
    requires i <= |dir| && forall n | i <= n < |dir| :: !GivesSummary(dir[n], key)
    ensures LastSummary(dir, key, i, s) == s
    decreases |dir| - i
  {
    if i < |dir| { NoSummaryLeft(dir, key, i + 1, s); }
  }

  /** Each session shows the messages of the last snapshot that bears its name. */
  lemma {:induction false} MigrateShows(d: Disk, i: nat, j: nat, key: string)
    requires i <= j < |d.dir| && SameFile(d.dir[j], key) && forall n | j < n < |d.dir| :: !SameFile(d.dir[n], key)
    ensures History(Migrate(d, i), key) == d.dir[j].snapshot.value.messages
  {
    MigrateGives(d, i, key);
    LastHistoryIs(d.dir, key, i, j, History(d, key));
  }

  /** And the summary of the last of them that has one. */
  lemma {:induction false} MigrateSummary(d: Disk, i: nat, j: nat, key: string)
    requires i <= j < |d.dir| && GivesSummary(d.dir[j], key) && forall n | j < n < |d.dir| :: !GivesSummary(d.dir[n], key)
    ensures Summary(Migrate(d, i), key) == d.dir[j].snapshot.value.summary
  {
    MigrateGives(d, i, key);
    LastSummaryIs(d.dir, key, i, j, Summary(d, key));
  }

  /** Without such a snapshot it keeps its history, and its summary. */
  lemma {:induction false} MigrateSpares(d: Disk, i: nat, key: string)
    requires i <= |d.dir|
    ensures (forall n | i <= n < |d.dir| :: !SameFile(d.dir[n], key)) ==> History(Migrate(d, i), key) == History(d, key)
    ensures (forall n | i <= n < |d.dir| :: !GivesSummary(d.dir[n], key)) ==> Summary(Migrate(d, i), key) == Summary(d, key)
  {
    MigrateGives(d, i, key);
    if forall n | i <= n < |d.dir| :: !SameFile(d.dir[n], key) { NoHistoryLeft(d.dir, key, i, History(d, key)); }
    if forall n | i <= n < |d.dir| :: !GivesSummary(d.dir[n], key) { NoSummaryLeft(d.dir, key, i, Summary(d, key)); }
  }

  /** Every snapshot is renamed, and every other entry is left alone. */
  lemma {:induction false} MigrateRenames(d: Disk, i: nat)
    requires i <= |d.dir|
    ensures var final := Migrate(d, i);
            && |final.dir| == |d.dir|
            && (forall n | 0 <= n < |d.dir| && (n < i || !IsSnapshot(d.dir[n])) :: final.dir[n] == d.dir[n])
            && forall n | i <= n < |d.dir| && IsSnapshot(d.dir[n]) ::
                 final.dir[n] == d.dir[n].(name := d.dir[n].name + ".migrated")
    decreases |d.dir| - i
  {
    hide IsSnapshot, EntryWrites, ApplyAll, Plan;
    if i < |d.dir| {
      MigrateStep(d, i);
      OthersStay(d, i);
      EntryRenames(d, i);
      MigrateRenames(ApplyAll(d, EntryWrites(d, i)), i + 1);
    } else {
      NothingToMigrate(d);
    }
  }

  lemma {:induction false} EntryRenames(d: Disk, i: nat)
    requires i < |d.dir|
    ensures var next := ApplyAll(d, EntryWrites(d, i));
      && |next.dir| == |d.dir|
      && next.dir[i] == if IsSnapshot(d.dir[i]) then d.dir[i].(name := d.dir[i].name + ".migrated") else d.dir[i]
  {
    PendingIsSnapshot(d.dir[i]);
    if Pending(d.dir[i]) { EntryGives(d, i); }
  }

  /** So none is left to import. */
  lemma {:induction false} NothingPending(d: Disk, i: nat)
    requires i <= |d.dir|
    ensures |Migrate(d, i).dir| == |d.dir|
    ensures forall n | i <= n < |d.dir| :: !IsSnapshot(Migrate(d, i).dir[n])
  {
    MigrateRenames(d, i);
    forall n | i <= n < |d.dir| ensures !IsSnapshot(Migrate(d, i).dir[n]) {
      if IsSnapshot(d.dir[n]) {
        var name := d.dir[n].name;
        assert (name + ".migrated")[|name|..] == ".migrated";
      }
    }
  }

  /** A store's own metadata file is no snapshot: the session that it belongs to keeps its history. */
  lemma {:induction false} MetadataStays(d: Disk, key: string)
    requires forall e | e in d.dir :: EndsIn(e.name, ".meta.json")
    ensures Migrate(d, 0) == d
  {
    hide HasSuffix, EndsIn;
    forall n | 0 <= n < |d.dir| ensures !Pending(d.dir[n]) { PendingIsSnapshot(d.dir[n]); }
    PassOver(d, 0, |d.dir|);
    NothingToMigrate(d);
  }
}
