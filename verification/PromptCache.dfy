/**
  The cached system prompt. It is rebuilt only when a look at existence and modification times says
  that a tracked file may have changed.
*/
module PromptCache {

  import opened Options

  // ---------------------------------------------------------------- the tracked files

  /** The bootstrap files and MEMORY.md, the skill roots, files below a root, and everything else. */
  datatype Path = Source(n: nat) | Root(n: nat) | Skill(root: nat, name: string) | Untracked(name: string)

  const SOURCES: nat := 5

  /** A file or directory: contents and modification time. */
  datatype Node = Node(content: string, mtime: nat)

  type Files = map<Path, Node>

  datatype Layout = Layout(roots: nat)

  /** Paths whose existence is tracked one by one. */
  predicate IsListed(p: Path, layout: Layout) {
    (p.Source? && p.n < SOURCES) || (p.Root? && p.n < layout.roots)
  }

  predicate IsSkillFile(p: Path, layout: Layout) { p.Skill? && p.root < layout.roots }

  predicate IsTracked(p: Path, layout: Layout) { IsListed(p, layout) || IsSkillFile(p, layout) }

  /** What the prompt is made of: the contents of source and skill files; of a root only the files below count. */
  function View(fs: Files, layout: Layout): map<Path, string> {
    map p | p in fs && IsTracked(p, layout) && !p.Root? :: fs[p].content
  }

  // ---------------------------------------------------------------- the cache

  /** The prompt is some function of the view; which one is left open. */
  type Builder = map<Path, string> -> string

  /** `cachedAt` 0 is the zero time; the two maps are None until the cache is first built. */
  datatype Cache = Cache(prompt: string, cachedAt: nat, existed: Option<map<Path, bool>>,
                         skillFiles: Option<map<Path, nat>>)

  const EMPTY := Cache("", 0, None, None)

  /** Modification times of the skill files. */
  function SkillTimes(fs: Files, layout: Layout): map<Path, nat> {
    map p | p in fs && IsSkillFile(p, layout) :: fs[p].mtime
  }

  predicate FileChanged(fs: Files, p: Path, c: Cache) {
    match c.existed
    case None => true
    case Some(existed) =>
      var before := p in existed && existed[p];
      if before != (p in fs) then true
      else if p !in fs then false
      else fs[p].mtime > c.cachedAt
  }

  predicate SkillsChanged(fs: Files, layout: Layout, c: Cache) {
    match c.skillFiles
    case None => true
    case Some(times) =>
      || (exists p | p in times :: p !in fs || fs[p].mtime != times[p])
      || (exists p | p in fs && IsSkillFile(p, layout) :: p !in times)
  }

  ghost predicate SourcesChanged(fs: Files, layout: Layout, c: Cache) {
    || c.cachedAt == 0
    || (exists p :: IsListed(p, layout) && FileChanged(fs, p, c))
    || SkillsChanged(fs, layout, c)
  }

  predicate IsMaxTime(fs: Files, layout: Layout, t: nat) {
    && (forall p | p in fs && IsTracked(p, layout) :: fs[p].mtime <= t)
    && (t == 1 || exists p | p in fs && IsTracked(p, layout) :: fs[p].mtime == t)
  }

  /** Existence and times as these files have them. */
  ghost predicate IsBaseline(c: Cache, fs: Files, layout: Layout) {
    && IsMaxTime(fs, layout, c.cachedAt) && c.cachedAt > 0
    && c.existed.Some? && (forall p | IsListed(p, layout) :: p in c.existed.value && c.existed.value[p] == (p in fs))
    && c.skillFiles == Some(SkillTimes(fs, layout))
  }

  /** A cache as a build leaves it: the baseline of some files, and the prompt of what is there later. */
  ghost predicate BuiltFrom(c: Cache, fs: Files, later: Files, layout: Layout, build: Builder) {
    IsBaseline(c, fs, layout) && c.prompt == build(View(later, layout))
  }

  predicate NeedsBuild(c: Cache, changed: bool) { c.prompt == "" || changed }

  // ---------------------------------------------------------------- runs

  /** A build that has taken its baseline, of these files and at this stamp, but not read them yet. */
  datatype Build = Build(baseline: Cache, files: Files, at: nat)

  /** Files, the stamp of the latest write, the cache, and a build under way. For reasoning only: the files
      and the stamp of the cache's baseline, and the files its prompt was rendered from. */
  datatype World = World(fs: Files, clock: nat, cache: Cache, building: Option<Build>,
                         origin: Files, stamp: nat, rendered: Files)

  /** A writer creates, edits or deletes any file or root, tracked or not, at any time. A call hands out
      the cached prompt, or takes a baseline and renders the prompt afterwards, under the write lock. */
  datatype Event =
    | Write(path: Path, content: string)
    | Delete(path: Path)
    | Invalidate
    | AnswerCached(result: string)
    | TakeBaseline
    | Render(result: string)

  ghost predicate Next(w: World, e: Event, w': World, layout: Layout, build: Builder) {
    match e
    case Write(p, content) => w' == w.(fs := w.fs[p := Node(content, w.clock + 1)], clock := w.clock + 1)
    case Delete(p) => w' == w.(fs := w.fs - {p})
    case Invalidate => w.building.None? && w' == w.(cache := EMPTY)
    case AnswerCached(result) =>
      && w.building.None? && !NeedsBuild(w.cache, SourcesChanged(w.fs, layout, w.cache))
      && w' == w && result == w.cache.prompt
    case TakeBaseline =>
      && w.building.None? && NeedsBuild(w.cache, SourcesChanged(w.fs, layout, w.cache))
      && w'.building.Some? && IsBaseline(w'.building.value.baseline, w.fs, layout)
      && w' == w.(building := Some(Build(w'.building.value.baseline, w.fs, w.clock)))
    case Render(result) =>
      && w.building.Some? && result == build(View(w.fs, layout))
      && var b := w.building.value;
         w' == w.(cache := b.baseline.(prompt := result), building := None,
                  origin := b.files, stamp := b.at, rendered := w.fs)
  }

  ghost predicate Initial(w: World) {
    w.cache == EMPTY && w.building.None? && w.clock >= 1 && forall p | p in w.fs :: w.fs[p].mtime <= w.clock
  }

  ghost predicate IsRun(worlds: seq<World>, events: seq<Event>, layout: Layout, build: Builder) {
    && |worlds| == |events| + 1 && Initial(worlds[0])
    && forall n | 0 <= n < |events| :: Next(worlds[n], events[n], worlds[n + 1], layout, build)
  }

  /** Every node of fs that is at most this old was there already in these files. */
  ghost predicate OldFrom(fs: Files, files: Files, stamp: nat) {
    forall p | p in fs && fs[p].mtime <= stamp :: p in files && files[p] == fs[p]
  }

  ghost predicate NotAfter(fs: Files, stamp: nat) { forall p | p in fs :: fs[p].mtime <= stamp }

  ghost predicate BuildInv(w: World, b: Build, layout: Layout) {
    && IsBaseline(b.baseline, b.files, layout) && 1 <= b.at <= w.clock
    && NotAfter(b.files, b.at) && OldFrom(w.fs, b.files, b.at)
  }

  ghost predicate CacheInv(w: World, layout: Layout, build: Builder) {
    && BuiltFrom(w.cache, w.origin, w.rendered, layout, build) && 1 <= w.stamp <= w.clock
    && NotAfter(w.origin, w.stamp) && OldFrom(w.fs, w.origin, w.stamp) && OldFrom(w.fs, w.rendered, w.stamp)
  }

  ghost predicate Consistent(w: World, layout: Layout, build: Builder) {
    && w.clock >= 1 && NotAfter(w.fs, w.clock)
    && (w.cache != EMPTY ==> CacheInv(w, layout, build))
    && (w.building.Some? ==> BuildInv(w, w.building.value, layout))
  }

  lemma {:induction false} ConsistentStep(w: World, e: Event, w': World, layout: Layout, build: Builder)
    requires Consistent(w, layout, build) && Next(w, e, w', layout, build)
    ensures Consistent(w', layout, build)
  {}

  lemma {:induction false} RunIsConsistent(worlds: seq<World>, events: seq<Event>, layout: Layout, build: Builder, n: nat)
    requires IsRun(worlds, events, layout, build) && n <= |events|
    ensures Consistent(worlds[n], layout, build)
  {
    if n > 0 {
      RunIsConsistent(worlds, events, layout, build, n - 1);
      ConsistentStep(worlds[n - 1], events[n - 1], worlds[n], layout, build);
    }
  }

  ghost predicate SameTracked(fs: Files, gs: Files, layout: Layout) {
    forall p | IsTracked(p, layout) :: SameAt(fs, gs, p)
  }

  ghost predicate SameAt(fs: Files, gs: Files, p: Path) { (p in fs <==> p in gs) && (p in fs ==> fs[p] == gs[p]) }

  /** The same bootstrap files and memory, the same skill roots, and the same files below them. */
  ghost predicate SameEverywhere(fs: Files, gs: Files, layout: Layout) {
    && SameAt(fs, gs, Source(0)) && SameAt(fs, gs, Source(1)) && SameAt(fs, gs, Source(2)) && SameAt(fs, gs, Source(3))
    && SameAt(fs, gs, Source(4))
    && (forall root: nat | root < layout.roots :: SameAt(fs, gs, Root(root)))
    && forall root: nat, name | root < layout.roots :: SameAt(fs, gs, Skill(root, name))
  }

  lemma {:induction false} TrackedIsEverywhere(fs: Files, gs: Files, layout: Layout)
    ensures SameTracked(fs, gs, layout) <==> SameEverywhere(fs, gs, layout)
  {
    hide SameAt;
    assert forall p: Path | p.Source? && p.n < 5 ::
      p == Source(0) || p == Source(1) || p == Source(2) || p == Source(3) || p == Source(4);
  }

  /** The prompt shows these files and no others. */
  predicate IsShown(p: Path, layout: Layout) { (p.Source? && p.n < 5) || (p.Skill? && p.root < layout.roots) }

  lemma {:induction false} ViewShows(fs: Files, layout: Layout, p: Path)
    ensures p in View(fs, layout) <==> p in fs && IsShown(p, layout)
    ensures p in View(fs, layout) ==> View(fs, layout)[p] == fs[p].content
  {}

  /** The check by existence and times is exact: it reports a change if and only if some tracked file
      or root differs from what the cache's baseline was taken of. */
  lemma {:induction false} ChangeIsExact(w: World, layout: Layout, build: Builder)
    requires Consistent(w, layout, build) && w.cache != EMPTY
    ensures SourcesChanged(w.fs, layout, w.cache) <==> !SameEverywhere(w.fs, w.origin, layout)
  {
    TrackedIsEverywhere(w.fs, w.origin, layout);
    hide SameEverywhere;
    if !SourcesChanged(w.fs, layout, w.cache) {
      UnchangedIsSame(w, layout, build);
    }
    if SameTracked(w.fs, w.origin, layout) {
      SameIsUnchanged(w, layout, build);
    }
  }

  lemma {:induction false} UnchangedIsSame(w: World, layout: Layout, build: Builder)
    requires CacheInv(w, layout, build) && !SourcesChanged(w.fs, layout, w.cache)
    ensures SameTracked(w.fs, w.origin, layout)
  {
    assert w.cache.cachedAt <= w.stamp;
    forall p | IsTracked(p, layout) ensures (p in w.fs <==> p in w.origin) && (p in w.fs ==> w.fs[p] == w.origin[p]) {
      if IsListed(p, layout) {
        assert !FileChanged(w.fs, p, w.cache);
      } else {
        assert p in SkillTimes(w.fs, layout) <==> p in SkillTimes(w.origin, layout);
        assert p in w.fs ==> SkillTimes(w.fs, layout)[p] == SkillTimes(w.origin, layout)[p];
      }
    }
  }

  lemma {:induction false} SameIsUnchanged(w: World, layout: Layout, build: Builder)
    requires CacheInv(w, layout, build) && SameTracked(w.fs, w.origin, layout)
    ensures !SourcesChanged(w.fs, layout, w.cache)
  {
    forall p
      ensures p in SkillTimes(w.fs, layout) <==> p in SkillTimes(w.origin, layout)
      ensures p in SkillTimes(w.fs, layout) ==> SkillTimes(w.fs, layout)[p] == SkillTimes(w.origin, layout)[p]
    {
      if IsSkillFile(p, layout) { assert IsTracked(p, layout) && SameAt(w.fs, w.origin, p); }
    }
    assert SkillTimes(w.fs, layout) == SkillTimes(w.origin, layout);
    forall p | IsListed(p, layout) ensures !FileChanged(w.fs, p, w.cache) {
      assert IsTracked(p, layout);
    }
  }

  /** A file that was created after the baseline, went into the prompt, and has been deleted since. */
  ghost predicate Vanished(w: World, layout: Layout) {
    exists p :: IsShown(p, layout) && p in w.rendered && p !in w.origin && p !in w.fs
  }

  /** Where the check sees no change, what the prompt was rendered from is what is there now, but for
      files that have vanished. */
  lemma {:induction false} UnchangedView(w: World, layout: Layout, build: Builder)
    requires CacheInv(w, layout, build) && SameTracked(w.fs, w.origin, layout)
    ensures View(w.rendered, layout) == View(w.fs, layout) <==> !Vanished(w, layout)
  {
    var now, before := View(w.fs, layout), View(w.rendered, layout);
    forall p | p in now ensures p in before && now[p] == before[p] {
      assert w.fs[p] == w.origin[p] && w.origin[p].mtime <= w.stamp;
    }
    if Vanished(w, layout) {
      var p :| IsShown(p, layout) && p in w.rendered && p !in w.origin && p !in w.fs;
      assert p in before && p !in now;
    } else {
      forall p | p in before ensures p in now {
        assert p in w.origin || p in w.fs;
      }
    }
  }

  /** After any sequence of creations, edits, deletions, calls and invalidations, with writes between the
      baseline and the rendering too, a cached answer is a prompt rendered from what is there now; unless,
      and only unless, a file that went into it was created after the baseline and has been deleted. */
  lemma {:induction false} CachedIsFresh(worlds: seq<World>, events: seq<Event>, layout: Layout, build: Builder, n: nat)
    requires IsRun(worlds, events, layout, build) && n < |events| && events[n].AnswerCached?
    ensures var w := worlds[n];
      && events[n].result == build(View(w.rendered, layout))
      && (View(w.rendered, layout) == View(w.fs, layout) <==> !Vanished(w, layout))
      && (!Vanished(w, layout) ==> events[n].result == build(View(w.fs, layout)))
  {
    var w := worlds[n];
    RunIsConsistent(worlds, events, layout, build, n);
    assert Next(w, events[n], worlds[n + 1], layout, build);
    ChangeIsExact(w, layout, build);
    TrackedIsEverywhere(w.fs, w.origin, layout);
    UnchangedView(w, layout, build);
  }

  /** How that can come about: the only file is written after the baseline, and deleted after the build. */
  lemma {:induction false} FileVanishes(layout: Layout, build: Builder, c: Cache)
      returns (worlds: seq<World>, events: seq<Event>)
    requires IsBaseline(c, map[], layout) && c.prompt == "" && build(map[Source(0) := "x"]) != ""
    ensures IsRun(worlds, events, layout, build) && |events| == 5 && events[4].AnswerCached?
    ensures View(worlds[4].rendered, layout) != View(worlds[4].fs, layout)
  {
    var fs: Files := map[Source(0) := Node("x", 2)];
    var prompt := build(map[Source(0) := "x"]);
    var built := c.(prompt := prompt);
    var w0 := World(map[], 1, EMPTY, None, map[], 0, map[]);
    var w1 := w0.(building := Some(Build(c, map[], 1)));
    var w2 := w1.(fs := fs, clock := 2);
    var w3 := World(fs, 2, built, None, map[], 1, fs);
    var w4 := w3.(fs := map[]);
    worlds := [w0, w1, w2, w3, w4, w4];
    events := [TakeBaseline, Write(Source(0), "x"), Render(prompt), Delete(Source(0)), AnswerCached(prompt)];
    assert View(fs, layout) == map[Source(0) := "x"];
    assert fs - {Source(0)} == map[];
    assert map[][Source(0) := Node("x", 2)] == fs;
    assert SkillTimes(map[], layout) == map[];
    assert !SourcesChanged(map[], layout, built);
    assert Source(0) in View(w4.rendered, layout) && Source(0) !in View(w4.fs, layout);
  }

  /** A build is begun exactly if there is no prompt yet, or a tracked file or root differs from the
      baseline of the last one; and it renders what is there. */
  lemma {:induction false} BuildsWhenChanged(worlds: seq<World>, events: seq<Event>, layout: Layout, build: Builder, n: nat)
    requires IsRun(worlds, events, layout, build) && n < |events|
    ensures events[n].TakeBaseline? ==>
              worlds[n].cache.prompt == "" || !SameEverywhere(worlds[n].fs, worlds[n].origin, layout)
    ensures events[n].Render? ==> events[n].result == build(View(worlds[n].fs, layout))
  {
    RunIsConsistent(worlds, events, layout, build, n);
    assert Next(worlds[n], events[n], worlds[n + 1], layout, build);
    if worlds[n].cache != EMPTY { ChangeIsExact(worlds[n], layout, build); }
  }

  // ---------------------------------------------------------------- the program

  /** The directory tree is handed to every call; it belongs to the outside. */
  class ContextBuilder {
    var cachedSystemPrompt: string
    var cachedAt: nat
    var existedAtCache: Option<map<Path, bool>>
    var skillFilesAtCache: Option<map<Path, nat>>
    const layout: Layout
    const build: Builder

    constructor (layout: Layout, build: Builder)
      ensures this.layout == layout && this.build == build && Cached() == EMPTY
    {
      this.layout, this.build := layout, build;
      cachedSystemPrompt, cachedAt, existedAtCache, skillFilesAtCache := "", 0, None, None;
    }

    function Cached(): Cache
      reads this
    {
      Cache(cachedSystemPrompt, cachedAt, existedAtCache, skillFilesAtCache)
    }

    /** Source files, then skill roots. */
    function ListedPaths(): (paths: seq<Path>)
      ensures forall p :: p in paths <==> IsListed(p, layout)
    {
      var sources := seq(SOURCES, n requires 0 <= n < SOURCES => Source(n));
      var roots := seq(layout.roots, n requires 0 <= n < layout.roots => Root(n));
      assert forall n: nat | n < SOURCES :: sources[n] == Source(n);
      assert forall n: nat | n < layout.roots :: roots[n] == Root(n);
      sources + roots
    }

    method InvalidateCache()
      modifies this
      ensures Cached() == EMPTY
    {
      cachedSystemPrompt, cachedAt, existedAtCache, skillFilesAtCache := "", 0, None, None;
    }

    method AnyListedChanged(fs: Files) returns (changed: bool)
      ensures changed <==> exists p :: IsListed(p, layout) && FileChanged(fs, p, Cached())
    {
      var paths := ListedPaths();
      for i := 0 to |paths|
        invariant forall k | 0 <= k < i :: !FileChanged(fs, paths[k], Cached())
      {
        if FileChanged(fs, paths[i], Cached()) {
          assert paths[i] in paths && IsListed(paths[i], layout);
          return true;
        }
      }
      return false;
    }

    /** Cached files first, for deletions and new times; then the trees, for new files. */
    method SkillFilesChanged(fs: Files) returns (changed: bool)
      ensures changed == SkillsChanged(fs, layout, Cached())
    {
      if skillFilesAtCache == None {
        return true;
      }
      var times := skillFilesAtCache.value;
      var left := times.Keys;
      while left != {}
        invariant left <= times.Keys && forall p | p in times.Keys - left :: p in fs && fs[p].mtime == times[p]
        decreases left
      {
        var p :| p in left;
        if p !in fs || fs[p].mtime != times[p] {
          return true;
        }
        left := left - {p};
      }
      var files := SkillTimes(fs, layout).Keys;
      while files != {}
        invariant files <= SkillTimes(fs, layout).Keys
        invariant forall p | p in SkillTimes(fs, layout).Keys - files :: p in times
        decreases files
      {
        var p :| p in files;
        if p !in times {
          return true;
        }
        files := files - {p};
      }
      assert forall p | p in fs && IsSkillFile(p, layout) :: p in SkillTimes(fs, layout).Keys;
      return false;
    }

    method SourceFilesChanged(fs: Files) returns (changed: bool)
      ensures changed == SourcesChanged(fs, layout, Cached())
    {
      if cachedAt == 0 {
        return true;
      }
      changed := AnyListedChanged(fs);
      if !changed {
        changed := SkillFilesChanged(fs);
      }
    }

    method BuildCacheBaseline(fs: Files) returns (existed: map<Path, bool>, skillFiles: map<Path, nat>, maxMtime: nat)
      ensures IsBaseline(Cache("", maxMtime, Some(existed), Some(skillFiles)), fs, layout)
    {
      existed, skillFiles, maxMtime := map[], map[], 0;
      var paths := ListedPaths();
      for i := 0 to |paths|
        invariant forall k | 0 <= k < i :: paths[k] in existed && existed[paths[k]] == (paths[k] in fs)
        invariant forall k | 0 <= k < i && paths[k] in fs :: fs[paths[k]].mtime <= maxMtime
        invariant maxMtime == 0 || exists k | 0 <= k < i :: paths[k] in fs && fs[paths[k]].mtime == maxMtime
      {
        existed := existed[paths[i] := paths[i] in fs];
        if paths[i] in fs && fs[paths[i]].mtime > maxMtime {
          maxMtime := fs[paths[i]].mtime;
        }
      }
      assert forall p | IsListed(p, layout) :: p in paths;
      assert maxMtime == 0 || exists p | p in fs && IsTracked(p, layout) :: fs[p].mtime == maxMtime by {
        if maxMtime != 0 {
          var k :| 0 <= k < |paths| && paths[k] in fs && fs[paths[k]].mtime == maxMtime;
          assert IsListed(paths[k], layout) && IsTracked(paths[k], layout) by { assert paths[k] in paths; }
        }
      }
      ghost var listedMax := maxMtime;
      var files := SkillTimes(fs, layout).Keys;
      while files != {}
        invariant files <= SkillTimes(fs, layout).Keys && listedMax <= maxMtime
        invariant skillFiles.Keys == SkillTimes(fs, layout).Keys - files
        invariant forall p | p in skillFiles :: skillFiles[p] == fs[p].mtime <= maxMtime
        invariant maxMtime == 0 || exists p | p in fs && IsTracked(p, layout) :: fs[p].mtime == maxMtime
        decreases files
      {
        var p :| p in files;
        skillFiles := skillFiles[p := fs[p].mtime];
        if fs[p].mtime > maxMtime {
          assert IsTracked(p, layout);
          maxMtime := fs[p].mtime;
        }
        files := files - {p};
      }
      assert skillFiles == SkillTimes(fs, layout);
      forall p | p in fs && IsTracked(p, layout) ensures fs[p].mtime <= maxMtime {
        if IsListed(p, layout) { assert p in paths; } else { assert p in skillFiles; }
      }
      if maxMtime == 0 {
        maxMtime := 1;
      }
    }

    /** `fs` is what the check and the baseline see, `later` what the prompt is rendered from. */
    method BuildSystemPromptWithCache(fs: Files, later: Files) returns (prompt: string)
      modifies this
      ensures var was := old(Cached());
        if NeedsBuild(was, SourcesChanged(fs, layout, was)) then
          BuiltFrom(Cached(), fs, later, layout, build) && prompt == Cached().prompt
        else
          Cached() == was && prompt == was.prompt
    {
      if cachedSystemPrompt != "" {
        var changed := SourceFilesChanged(fs);
        if !changed {
          return cachedSystemPrompt;
        }
      }
      var existed, skillFiles, maxMtime := BuildCacheBaseline(fs);
      prompt := build(View(later, layout));
      cachedSystemPrompt := prompt;
      cachedAt := maxMtime;
      existedAtCache := Some(existed);
      skillFilesAtCache := Some(skillFiles);
    }
  }
}
