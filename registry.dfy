/**
 * `SkillRegistry`: an insertion-ordered mapping from skill name to skill class.
 * `order` holds the keys in first-insertion order (the order a Python dict iterates in).
 */
module Registry {
  import opened Wrappers
  import opened PyText
  import opened Skills

  /** The registry's contents as a value. */
  datatype Catalogue = Catalogue(order: seq<string>, skills: map<string, SkillClass>)

  predicate Distinct(names: seq<string>) {
    forall i, j :: 0 <= i < j < |names| ==> names[i] != names[j]
  }

  /** Every name once, in insertion order; each class is stored under its own name and derives from `BaseSkill`. */
  ghost predicate ValidCatalogue(c: Catalogue) {
    && Distinct(c.order)
    && (forall n :: n in c.order <==> n in c.skills)
    && (forall n :: n in c.skills ==> c.skills[n].name == n && c.skills[n].derivesFromBase)
  }

  function Empty(): (c: Catalogue)
    ensures ValidCatalogue(c) && c.order == []
  {
    Catalogue([], map[])
  }

  /** `self._skills[cls.name] = cls`: a new name goes last, a known name is replaced where it stands. */
  function Put(c: Catalogue, cls: SkillClass): (r: Catalogue)
    requires ValidCatalogue(c) && cls.derivesFromBase
    ensures ValidCatalogue(r)
    ensures r.skills.Keys == c.skills.Keys + {cls.name} && r.skills[cls.name] == cls
    ensures forall n :: n in c.skills && n != cls.name ==> r.skills[n] == c.skills[n]
    ensures cls.name in c.skills ==> r.order == c.order
    ensures cls.name !in c.skills ==> r.order == c.order + [cls.name]
  {
    Catalogue(if cls.name in c.skills then c.order else c.order + [cls.name], c.skills[cls.name := cls])
  }

  // ------------------------------------------------------------------ ordered filters

  /** `a` is `b` with some elements left out and the rest in the same order. */
  predicate Subseq(a: seq<string>, b: seq<string>)
    decreases |b|
  {
    if a == [] then true
    else if b == [] then false
    else if a[|a| - 1] == b[|b| - 1] then Subseq(a[..|a| - 1], b[..|b| - 1])
    else Subseq(a, b[..|b| - 1])
  }

  /** The names whose class carries the tag, in the order given. */
  function Tagged(names: seq<string>, skills: map<string, SkillClass>, tag: string): (r: seq<string>)
    ensures forall i :: 0 <= i < |r| ==> r[i] in skills && tag in skills[r[i]].tags
  {
    if names == [] then []
    else
      var last := names[|names| - 1];
      Tagged(names[..|names| - 1], skills, tag) + if last in skills && tag in skills[last].tags then [last] else []
  }

  /** Exactly the tagged names are listed, and in the order given. */
  lemma {:induction false} TaggedExactly(names: seq<string>, skills: map<string, SkillClass>, tag: string)
    ensures forall n :: n in Tagged(names, skills, tag) <==> n in names && n in skills && tag in skills[n].tags
    ensures Subseq(Tagged(names, skills, tag), names)
  {
    if names != [] {
      var init, last := names[..|names| - 1], names[|names| - 1];
      TaggedExactly(init, skills, tag);
      assert names == init + [last];
      var r, prev := Tagged(names, skills, tag), Tagged(init, skills, tag);
      assert names[..|names| - 1] == init;
      if last in skills && tag in skills[last].tags {
        assert r == prev + [last] && r[..|r| - 1] == prev;
      } else if r != [] {
        assert r == prev;
        assert r[|r| - 1] in skills && tag in skills[r[|r| - 1]].tags;
        assert r[|r| - 1] != last;
      }
    }
  }

  /** A name's schedule when it is set and non-empty (`if cls.schedule`). */
  predicate HasSchedule(skills: map<string, SkillClass>, n: string) {
    n in skills && skills[n].schedule.Some? && skills[n].schedule.value != ""
  }

  /** `(name, schedule)` for the names whose class has a non-empty schedule, in the order given. */
  function Scheduled(names: seq<string>, skills: map<string, SkillClass>): (r: seq<(string, string)>)
    ensures forall i :: 0 <= i < |r| ==> HasSchedule(skills, r[i].0) && skills[r[i].0].schedule.value == r[i].1
  {
    if names == [] then []
    else
      var last := names[|names| - 1];
      Scheduled(names[..|names| - 1], skills) + if HasSchedule(skills, last) then [(last, skills[last].schedule.value)] else []
  }

  function NamesOf(pairs: seq<(string, string)>): (r: seq<string>)
    ensures |r| == |pairs| && forall i :: 0 <= i < |r| ==> r[i] == pairs[i].0
  {
    seq(|pairs|, i requires 0 <= i < |pairs| => pairs[i].0)
  }

  /** Exactly the scheduled names are listed, each with its own schedule, and in the order given. */
  lemma {:induction false} ScheduledExactly(names: seq<string>, skills: map<string, SkillClass>)
    ensures forall n :: n in NamesOf(Scheduled(names, skills)) <==> n in names && HasSchedule(skills, n)
    ensures Subseq(NamesOf(Scheduled(names, skills)), names)
  {
    if names != [] {
      var init, last := names[..|names| - 1], names[|names| - 1];
      ScheduledExactly(init, skills);
      assert names == init + [last];
      var r, prev := NamesOf(Scheduled(names, skills)), NamesOf(Scheduled(init, skills));
      assert names[..|names| - 1] == init;
      if HasSchedule(skills, last) {
        assert r == prev + [last] && r[..|r| - 1] == prev;
      } else {
        assert r == prev;
        if r != [] {
          assert HasSchedule(skills, r[|r| - 1]);
          assert r[|r| - 1] != last;
        }
      }
    }
  }

  // ------------------------------------------------------------------ discovery

  /**
   * One module found next to the registry: its name, and the attributes of the imported
   * module in `dir()` order (`None` for an attribute that is not a class), or `None` when
   * importing it raised.
   */
  datatype FoundModule = FoundModule(name: string, attrs: Option<seq<Option<SkillClass>>>)

  /** Modules discovery never imports. */
  predicate SkippedModule(name: string) {
    StartsWith(name, "_") || name == "base" || name == "registry"
  }

  /** A class discovery registers: a proper `BaseSkill` subclass whose name is not yet taken. */
  predicate Discoverable(attr: Option<SkillClass>, skills: map<string, SkillClass>) {
    attr.Some? && attr.value.derivesFromBase && !attr.value.isBase && attr.value.name !in skills
  }

  function DiscoverAttrs(c: Catalogue, attrs: seq<Option<SkillClass>>): (r: Catalogue)
    requires ValidCatalogue(c)
    ensures ValidCatalogue(r)
  {
    if attrs == [] then c
    else
      var prev := DiscoverAttrs(c, attrs[..|attrs| - 1]);
      var last := attrs[|attrs| - 1];
      if Discoverable(last, prev.skills) then Put(prev, last.value) else prev
  }

  function DiscoverModules(c: Catalogue, modules: seq<FoundModule>): (r: Catalogue)
    requires ValidCatalogue(c)
    ensures ValidCatalogue(r)
  {
    if modules == [] then c
    else
      var prev := DiscoverModules(c, modules[..|modules| - 1]);
      var m := modules[|modules| - 1];
      if SkippedModule(m.name) || m.attrs.None? then prev else DiscoverAttrs(prev, m.attrs.value)
  }

  /** `a` grows into `b`: nothing registered is replaced, and new names only ever go last. */
  ghost predicate Grows(a: Catalogue, b: Catalogue) {
    && a.order <= b.order
    && (forall n :: n in a.skills ==> n in b.skills && b.skills[n] == a.skills[n])
  }

  lemma GrowsTransitive(a: Catalogue, b: Catalogue, c: Catalogue)
    requires Grows(a, b) && Grows(b, c)
    ensures Grows(a, c)
  {
  }

  lemma {:induction false} DiscoverAttrsGrows(c: Catalogue, attrs: seq<Option<SkillClass>>)
    requires ValidCatalogue(c)
    ensures Grows(c, DiscoverAttrs(c, attrs))
  {
    if attrs != [] {
      DiscoverAttrsGrows(c, attrs[..|attrs| - 1]);
    }
  }

  /** Discovery only adds: the first class registered under a name keeps it. */
  lemma {:induction false} DiscoverModulesGrows(c: Catalogue, modules: seq<FoundModule>)
    requires ValidCatalogue(c)
    ensures Grows(c, DiscoverModules(c, modules))
  {
    if modules != [] {
      var prev := DiscoverModules(c, modules[..|modules| - 1]);
      DiscoverModulesGrows(c, modules[..|modules| - 1]);
      var m := modules[|modules| - 1];
      if !(SkippedModule(m.name) || m.attrs.None?) {
        DiscoverAttrsGrows(prev, m.attrs.value);
        GrowsTransitive(c, prev, DiscoverModules(c, modules));
      }
    }
  }

  /** A module whose import fails, or that is skipped, changes nothing: the modules after it are discovered as if it were absent. */
  lemma {:induction false} IgnoredModuleChangesNothing(c: Catalogue, before: seq<FoundModule>, m: FoundModule, after: seq<FoundModule>)
    requires ValidCatalogue(c)
    requires SkippedModule(m.name) || m.attrs.None?
    ensures DiscoverModules(c, before + [m] + after) == DiscoverModules(c, before + after)
    decreases |after|
  {
    if after == [] {
      assert (before + [m] + after)[..|before| + 1 - 1] == before;
      assert before + after == before;
    } else {
      var init, last := after[..|after| - 1], after[|after| - 1];
      var xs, ys := before + [m] + after, before + after;
      IgnoredModuleChangesNothing(c, before, m, init);
      assert xs[..|xs| - 1] == before + [m] + init && xs[|xs| - 1] == last;
      assert ys[..|ys| - 1] == before + init && ys[|ys| - 1] == last;
    }
  }

  // ------------------------------------------------------------------ the registry

  lemma {:induction false} DistinctCount(names: seq<string>)
    requires Distinct(names)
    ensures |set n | n in names| == |names|
  {
    if names != [] {
      var init, last := names[..|names| - 1], names[|names| - 1];
      DistinctCount(init);
      assert (set n | n in names) == (set n | n in init) + {last};
      assert last !in (set n | n in init);
    }
  }

  class SkillRegistry {
    var order: seq<string>
    var skills: map<string, SkillClass>

    function Contents(): Catalogue
      reads this
    {
      Catalogue(order, skills)
    }

    ghost predicate Valid()
      reads this
    {
      ValidCatalogue(Contents())
    }

    /** `SkillRegistry()`: empty. */
    constructor()
      ensures Valid() && order == [] && skills == map[]
    {
      order := [];
      skills := map[];
    }

    /** `register`: a class that does not derive from `BaseSkill` raises `TypeError` and changes nothing. */
    method Register(cls: SkillClass) returns (r: Result<SkillClass>)
      requires Valid()
      modifies this
      ensures Valid()
      ensures !cls.derivesFromBase ==> r == Err(cls.name + " 必须继承 BaseSkill") && Contents() == old(Contents())
      ensures cls.derivesFromBase ==> r == Ok(cls) && Contents() == Put(old(Contents()), cls)
    {
      if !cls.derivesFromBase {
        return Err(cls.name + " 必须继承 BaseSkill");
      }
      if cls.name !in skills {
        order := order + [cls.name];
      }
      skills := skills[cls.name := cls];
      r := Ok(cls);
    }

    /** `get`: the class registered under the name, if any. */
    function Get(name: string): (r: Option<SkillClass>)
      reads this
      requires Valid()
      ensures r.Some? <==> name in order
      ensures r.Some? ==> r.value.name == name && r.value == skills[name]
    {
      if name in skills then Some(skills[name]) else None
    }

    /** `get_instance`: a fresh instance of the registered class, or `None`. */
    method GetInstance(name: string) returns (r: Option<Skill>)
      requires Valid()
      ensures r.Some? <==> name in skills
      ensures r.Some? ==> fresh(r.value) && r.value.cls == skills[name] && r.value.backend == None
    {
      var found := Get(name);
      if found.None? {
        return None;
      }
      var instance := new Skill(found.value);
      r := Some(instance);
    }

    /** `list_all`: every registered name exactly once, in first-registration order. */
    function ListAll(): (r: seq<string>)
      reads this
      requires Valid()
      ensures r == order
      ensures Distinct(r) && forall n :: n in r <==> n in skills
    {
      order
    }

    /** `list_by_tag`: exactly the names whose tags contain the tag, in registry order. */
    function ListByTag(tag: string): (r: seq<string>)
      reads this
      requires Valid()
      ensures forall n :: n in r <==> n in skills && tag in skills[n].tags
      ensures Subseq(r, order)
    {
      TaggedExactly(order, skills, tag);
      Tagged(order, skills, tag)
    }

    /** `list_scheduled`: `(name, schedule)` for exactly the names with a non-empty schedule, in registry order. */
    function ListScheduled(): (r: seq<(string, string)>)
      reads this
      requires Valid()
      ensures forall n :: n in NamesOf(r) <==> HasSchedule(skills, n)
      ensures forall i :: 0 <= i < |r| ==> r[i].0 in skills && skills[r[i].0].schedule == Some(r[i].1)
      ensures Subseq(NamesOf(r), order)
    {
      ScheduledExactly(order, skills);
      Scheduled(order, skills)
    }

    /** `__len__`: the number of registered names. */
    function Len(): (n: nat)
      reads this
      requires Valid()
      ensures n == |skills.Keys| && n == |ListAll()|
    {
      DistinctCount(order);
      assert (set x | x in order) == skills.Keys;
      |order|
    }

    /** `__contains__`: whether the name is registered, i.e. listed by `list_all`. */
    predicate Contains(name: string)
      reads this
      requires Valid()
      ensures Contains(name) <==> name in ListAll()
    {
      name in skills
    }

    /** `auto_discover`: registers, module by module and attribute by attribute, every class not yet present. */
    method AutoDiscover(modules: seq<FoundModule>)
      requires Valid()
      modifies this
      ensures Valid()
      ensures Contents() == DiscoverModules(old(Contents()), modules)
      ensures Grows(old(Contents()), Contents())
    {
      ghost var start := Contents();
      var i := 0;
      while i < |modules|
        invariant 0 <= i <= |modules|
        invariant Valid() && Contents() == DiscoverModules(start, modules[..i])
      {
        assert modules[..i + 1][..i] == modules[..i];
        var m := modules[i];
        if !SkippedModule(m.name) && m.attrs.Some? {
          var attrs := m.attrs.value;
          ghost var before := Contents();
          var j := 0;
          while j < |attrs|
            invariant 0 <= j <= |attrs|
            invariant Valid() && Contents() == DiscoverAttrs(before, attrs[..j])
          {
            assert attrs[..j + 1][..j] == attrs[..j];
            var attr := attrs[j];
            if attr.Some? && attr.value.derivesFromBase && !attr.value.isBase && attr.value.name !in skills {
              var _ := Register(attr.value);
            }
            j := j + 1;
          }
          assert attrs[..j] == attrs;
        }
        i := i + 1;
      }
      assert modules[..i] == modules;
      DiscoverModulesGrows(start, modules);
    }
  }
}
