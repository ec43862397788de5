/**
 * The system prompt's cache: kept while no tracked file was modified,
 * created or deleted, by modification times, and rebuilt otherwise.
 */
module PromptCache {
  import opened Common

  type Time = int          // 0 is the zero time
  type Date = string

  const UNIX_1: Time := 62_135_596_801   // time.Unix(1, 0), in seconds after the zero time

  /** A source file, a skill directory, or a file somewhere below one. */
  datatype Path = Source(name: string) | Root(dir: string) | Skill(dir: string, name: string)

  /** A file, or a directory (whose content is of no account). */
  datatype File = File(content: string, mtime: Time)

  type Files = map<Path, File>

  /** What is fixed for a builder: its sources, its skill directories, and how a prompt is made of what they hold. */
  datatype Options = Options(sources: seq<Path>, roots: seq<Path>, render: (map<Path, string>, Date) -> string)

  // ---- What the prompt is made of ----

  predicate IsSkill(o: Options, p: Path) { p.Skill? && Root(p.dir) in o.roots }

  predicate Tracked(o: Options, p: Path) { p in o.sources || p in o.roots || IsSkill(o, p) }

  /** What BuildSystemPrompt reads: the contents of the sources and of the files below the skill directories. */
  function Read(o: Options, fs: Files): map<Path, string> {
    map p | p in fs && (p in o.sources || IsSkill(o, p)) :: fs[p].content
  }

  function FullBuild(o: Options, fs: Files, date: Date): string { o.render(Read(o, fs), date) }

  // ---- The cache ----

  datatype Cache = Cache(prompt: string, at: Time, date: Date, existed: Option<map<Path, bool>>, skills: Option<map<Path, Time>>)

  const NoCache := Cache("", 0, "", None, None)

  ghost predicate IsNewest(o: Options, fs: Files, m: Time) {
    (forall p :: p in fs && Tracked(o, p) ==> fs[p].mtime <= m)
    && (m == 0 || exists p :: p in fs && Tracked(o, p) && fs[p].mtime == m)
  }

  function SkillTimes(o: Options, fs: Files): map<Path, Time> { map p | p in fs && IsSkill(o, p) :: fs[p].mtime }

  /** c was built of the files fs. */
  ghost predicate BuiltFrom(o: Options, c: Cache, fs: Files) {
    c.existed.Some? && c.skills == Some(SkillTimes(o, fs))
    && (forall p :: p in o.sources || p in o.roots ==> p in c.existed.value && (c.existed.value[p] <==> p in fs))
    && (exists m :: IsNewest(o, fs, m) && c.at == if m == 0 then UNIX_1 else m)
    && c.prompt == FullBuild(o, fs, c.date)
  }

  /** fileChangedSince */
  predicate FileChanged(c: Cache, fs: Files, p: Path) {
    c.existed.None?
    || (p in c.existed.value && c.existed.value[p]) != (p in fs)
    || (p in fs && fs[p].mtime > c.at)
  }

  /** sourceFilesChangedLocked */
  predicate Changed(o: Options, c: Cache, fs: Files, date: Date) {
    c.at == 0 || c.date != date
    || (exists p :: p in o.sources && FileChanged(c, fs, p)) || (exists p :: p in o.roots && FileChanged(c, fs, p))
    || c.skills != Some(SkillTimes(o, fs))
  }

  /** The prompt is made of the sources and the skill files: an edit of anything else there is changes nothing it reads. */
  lemma EditIsReadIff(o: Options, fs: Files, p: Path, content: string, t: Time)
    requires p in fs && content != fs[p].content
    ensures Read(o, fs[p := File(content, t)]) != Read(o, fs) <==> p in o.sources || IsSkill(o, p)
  {
    var was, now := Read(o, fs), Read(o, fs[p := File(content, t)]);
    if p in o.sources || IsSkill(o, p) {
      assert was[p] != now[p];
    } else {
      assert now == was;
    }
  }

  // ---- Why an unchanged cache is right ----

  /** Since the cache was built of was, with no time after built, each write has had a later time than all before it. */
  ghost predicate WrittenLater(was: Files, fs: Files, built: Time) {
    (forall p :: p in was ==> 0 < was[p].mtime <= built)
    && forall p :: p in fs && fs[p].mtime <= built ==> p in was && fs[p] == was[p]
  }

  lemma UnchangedReadsTheSame(o: Options, c: Cache, was: Files, fs: Files, date: Date, built: Time)
    requires BuiltFrom(o, c, was) && WrittenLater(was, fs, built) && !Changed(o, c, fs, date)
    ensures Read(o, fs) == Read(o, was) && c.prompt == FullBuild(o, fs, date)
  {
    var m :| IsNewest(o, was, m) && c.at == if m == 0 then UNIX_1 else m;
    forall p | p in o.sources
      ensures p in fs <==> p in was
      ensures p in fs ==> fs[p] == was[p]
    {
      assert !FileChanged(c, fs, p);
    }
    forall p | IsSkill(o, p)
      ensures p in fs <==> p in was
      ensures p in fs ==> fs[p] == was[p]
    {
      assert p in SkillTimes(o, fs) <==> p in fs;
      assert p in SkillTimes(o, was) <==> p in was;
      if p in fs { assert SkillTimes(o, fs)[p] == SkillTimes(o, was)[p]; }
    }
    assert Read(o, fs) == Read(o, was);
  }

  /** An edit of an existing source is noticed exactly when its time is after every tracked file's at the build. */
  lemma EditIsSeenIff(o: Options, c: Cache, was: Files, p: Path, content: string, t: Time, m: Time)
    requires BuiltFrom(o, c, was) && IsNewest(o, was, m) && m > 0 && p in o.sources && p.Source? && p in was
    ensures Changed(o, c, was[p := File(content, t)], c.date) <==> t > m
  {
    var fs := was[p := File(content, t)];
    var m' :| IsNewest(o, was, m') && c.at == if m' == 0 then UNIX_1 else m';
    assert m' == m by { OneNewest(o, was, m, m'); }
    assert SkillTimes(o, fs) == SkillTimes(o, was);
    if t > m { assert FileChanged(c, fs, p); }
    forall q | q in o.sources || q in o.roots ensures FileChanged(c, fs, q) ==> q == p && t > m {
      if q in was { assert Tracked(o, q); }
    }
  }

  /** So a copy that brings its older time along is not. */
  lemma OldEditIsMissed() returns (o: Options, c: Cache, was: Files, fs: Files, p: Path)
    ensures BuiltFrom(o, c, was) && p in was && fs == was[p := File("new", was[p].mtime - 1)]
    ensures !Changed(o, c, fs, c.date) && c.prompt != FullBuild(o, fs, c.date)
  {
    p := Source("AGENT.md");
    o := Options([p], [], (held, date) => if Source("AGENT.md") in held then held[Source("AGENT.md")] else "");
    was, fs := map[p := File("old", 2)], map[p := File("new", 1)];
    c := Cache("old", 2, "", Some(map[p := true]), Some(map[]));
    assert IsNewest(o, was, 2) by { assert Tracked(o, p); }
    assert SkillTimes(o, was) == map[] == SkillTimes(o, fs);
    EditIsSeenIff(o, c, was, p, "new", 1, 2);
  }

  lemma OneNewest(o: Options, fs: Files, m: Time, m': Time)
    requires IsNewest(o, fs, m) && IsNewest(o, fs, m') && m > 0
    ensures m' == m || (m' == 0 && forall p :: p in fs && Tracked(o, p) ==> fs[p].mtime <= 0)
    ensures m' == m
  {
    var p :| p in fs && Tracked(o, p) && fs[p].mtime == m;
    assert m <= m';
    if m' > 0 {
      var q :| q in fs && Tracked(o, q) && fs[q].mtime == m';
    }
  }

  /** An edit of an existing skill file is noticed exactly when its time is another. */
  lemma SkillEditIsSeenIff(o: Options, c: Cache, was: Files, p: Path, content: string, t: Time)
    requires BuiltFrom(o, c, was) && IsSkill(o, p) && p in was && c.at != 0
    requires p !in o.sources && p !in o.roots && !Changed(o, c, was, c.date)
    ensures Changed(o, c, was[p := File(content, t)], c.date) <==> t != was[p].mtime
  {
    var fs := was[p := File(content, t)];
    assert p in SkillTimes(o, fs) && SkillTimes(o, fs)[p] == t && SkillTimes(o, was)[p] == was[p].mtime;
    if t == was[p].mtime { assert SkillTimes(o, fs) == SkillTimes(o, was); }
    forall q | q in o.sources || q in o.roots ensures FileChanged(c, fs, q) == FileChanged(c, was, q) {}
  }

  // ---- The builder over a changing workspace ----

  class Builder {
    const o: Options
    var c: Cache
    var fs: Files            // the workspace
    var date: Date           // today
    ghost var clock: Time    // the latest modification time given so far
    ghost var was: Files     // the workspace when the cache was built
    ghost var built: Time     // the clock then

    ghost predicate Valid()
      reads this
    {
      (forall p :: p in fs ==> 0 < fs[p].mtime <= clock)
      && built <= clock
      && (c.skills.Some? ==> forall p :: p in c.skills.value ==> IsSkill(o, p))
      && (c.prompt != "" && c.at != 0 ==> BuiltFrom(o, c, was) && WrittenLater(was, fs, built))
    }

    constructor (o: Options, date: Date)
      ensures Valid() && this.o == o && c == NoCache && fs == map[] && this.date == date
    {
      this.o, c, fs, this.date := o, NoCache, map[], date;
      clock, was, built := 0, map[], 0;
    }

    // ---- What happens to the workspace ----

    /** A file is created or edited, or a directory touched, at a later time than any so far. */
    method Write(p: Path, content: string, t: Time)
      requires Valid() && t > clock && t > 0
      modifies this
      ensures Valid() && fs == old(fs)[p := File(content, t)] && date == old(date) && clock == t
    {
      fs := fs[p := File(content, t)];
      clock := t;
    }

    method Delete(p: Path)
      requires Valid()
      modifies this
      ensures Valid() && fs == old(fs) - {p} && date == old(date) && clock == old(clock)
    {
      fs := fs - {p};
    }

    method SetDate(d: Date)
      requires Valid()
      modifies this
      ensures Valid() && fs == old(fs) && date == d && clock == old(clock)
    {
      date := d;
    }

    // ---- The cache's methods ----

    /** fileChangedSince over a list of paths. */
    method AnyChanged(paths: seq<Path>) returns (changed: bool)
      ensures changed <==> exists p :: p in paths && FileChanged(c, fs, p)
    {
      for i := 0 to |paths|
        invariant forall j :: 0 <= j < i ==> !FileChanged(c, fs, paths[j])
      {
        if FileChanged(c, fs, paths[i]) {
          return true;
        }
      }
      return false;
    }

    /** skillFilesChangedSince */
    method SkillFilesChanged() returns (changed: bool)
      requires c.skills.Some? ==> forall p :: p in c.skills.value ==> IsSkill(o, p)
      ensures changed <==> c.skills != Some(SkillTimes(o, fs))
    {
      if c.skills.None? { return true; }
      var cached := c.skills.value;
      var rest := cached.Keys;
      while rest != {}
        invariant rest <= cached.Keys
        invariant forall p :: p in cached && p !in rest ==> p in fs && fs[p].mtime == cached[p]
      {
        var p :| p in rest;
        if p !in fs || fs[p].mtime != cached[p] {
          DiffersAt(o, fs, cached, p);
          return true;
        }
        rest := rest - {p};
      }
      var walk := set p | p in fs && IsSkill(o, p);
      while walk != {}
        invariant walk <= (set p | p in fs && IsSkill(o, p))
        invariant forall p :: p in fs && IsSkill(o, p) && p !in walk ==> p in cached
      {
        var p :| p in walk;
        if p !in cached {
          DiffersAt(o, fs, cached, p);
          return true;
        }
        walk := walk - {p};
      }
      changed := false;
      assert cached == SkillTimes(o, fs);
    }

    /** sourceFilesChangedLocked */
    method SourceFilesChanged() returns (changed: bool)
      requires c.skills.Some? ==> forall p :: p in c.skills.value ==> IsSkill(o, p)
      ensures changed <==> Changed(o, c, fs, date)
    {
      if c.at == 0 || c.date != date { return true; }
      changed := AnyChanged(o.sources);
      if changed { return; }
      changed := AnyChanged(o.roots);
      if changed { return; }
      changed := SkillFilesChanged();
    }

    /** buildCacheBaseline */
    method BuildBaseline() returns (existed: map<Path, bool>, skills: map<Path, Time>, newest: Time)
      requires forall p :: p in fs ==> fs[p].mtime > 0
      ensures forall p :: p in o.sources || p in o.roots ==> p in existed && (existed[p] <==> p in fs)
      ensures skills == SkillTimes(o, fs)
      ensures exists m :: IsNewest(o, fs, m) && newest == if m == 0 then UNIX_1 else m
    {
      var paths := o.sources + o.roots;
      existed, skills, newest := map[], map[], 0;
      for i := 0 to |paths|
        invariant forall j :: 0 <= j < i ==> paths[j] in existed && (existed[paths[j]] <==> paths[j] in fs)
        invariant forall j :: 0 <= j < i && paths[j] in fs ==> fs[paths[j]].mtime <= newest
        invariant newest == 0 || exists p :: p in fs && Tracked(o, p) && fs[p].mtime == newest
      {
        var p := paths[i];
        existed := existed[p := p in fs];
        if p in fs && fs[p].mtime > newest {
          newest := fs[p].mtime;
        }
      }
      assert forall p :: p in o.sources || p in o.roots ==> p in paths;
      var walk := set p | p in fs && IsSkill(o, p);
      while walk != {}
        invariant walk <= (set p | p in fs && IsSkill(o, p))
        invariant forall p :: p in paths && p in fs ==> fs[p].mtime <= newest
        invariant skills == map p | p in fs && IsSkill(o, p) && p !in walk :: fs[p].mtime
        invariant forall p :: p in skills ==> fs[p].mtime <= newest
        invariant newest == 0 || exists p :: p in fs && Tracked(o, p) && fs[p].mtime == newest
      {
        var p :| p in walk;
        skills := skills[p := fs[p].mtime];
        if fs[p].mtime > newest {
          newest := fs[p].mtime;
        }
        walk := walk - {p};
      }
      assert skills == SkillTimes(o, fs);
      assert IsNewest(o, fs, newest);
      if newest == 0 {
        newest := UNIX_1;
      }
    }

    /** BuildSystemPromptWithCache: what a full build would give now, and the cache is of it. */
    method SystemPrompt() returns (prompt: string)
      requires Valid()
      modifies this
      ensures Valid() && prompt == FullBuild(o, fs, date)
      ensures fs == old(fs) && date == old(date) && clock == old(clock)
      ensures c.prompt == prompt && c.date == date
    {
      if c.prompt != "" {
        var changed := SourceFilesChanged();
        if !changed {
          UnchangedReadsTheSame(o, c, was, fs, date, built);
          return c.prompt;
        }
      }
      var existed, skills, newest := BuildBaseline();
      prompt := FullBuild(o, fs, date);
      c := Cache(prompt, newest, date, Some(existed), Some(skills));
      was, built := fs, clock;
    }

    /** InvalidateCache */
    method Invalidate()
      requires Valid()
      modifies this
      ensures Valid() && c == NoCache && fs == old(fs) && date == old(date) && clock == old(clock)
    {
      c := NoCache;
    }
  }

  lemma DiffersAt(o: Options, fs: Files, cached: map<Path, Time>, p: Path)
    requires (p in cached && (p !in fs || fs[p].mtime != cached[p])) || (p in fs && IsSkill(o, p) && p !in cached)
    ensures SkillTimes(o, fs) != cached
  {
    assert p in SkillTimes(o, fs) <==> p in fs && IsSkill(o, p);
  }
}
