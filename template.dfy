/**
 * The template registry of rapport (rapport/template.py): the `firstline`
 * text filter, the per-type template search path, the template file name,
 * and the process-wide cache of per-type rendering environments that
 * `get_template` fills lazily before looking a template up.
 */
module Template {
  import opened Wrappers

  /** A file-system path as its sequence of components. */
  type Path = seq<string>

  /** The template types, in the order `init` visits them. */
  const TemplateTypes: seq<string> := ["plugin", "email", "web"]

  /** Defaults of `get_template`'s `format` and `type` parameters. */
  const DefaultFormat: string := "text"
  const DefaultType: string := "plugin"

  const MissingPrefix: string := "Missing template "

  // ---------------------------------------------------------------------
  // The `firstline` filter
  // ---------------------------------------------------------------------

  /** Length of the leading run of non-newline characters: what the greedy
      `.*` matches at the start of `s`, and the index of the first '\n'
      of `s` (or `|s|` when there is none). */
  function LineLength(s: string): (n: nat)
    ensures n <= |s|
    ensures forall k :: 0 <= k < n ==> s[k] != '\n'
    ensures n < |s| ==> s[n] == '\n'
  {
    if s == [] || s[0] == '\n' then 0 else 1 + LineLength(s[1..])
  }

  /** `firstline_filter(s)`, i.e. `re.sub("\n.*", '', s)`: scanning from the
      left, each '\n' is deleted together with the greedy run of non-newline
      characters that follows it, and every other character is copied. */
  function FirstLine(s: string): (r: string)
    ensures r <= s
    ensures '\n' !in r
    ensures |s| > 0 && s[0] == '\n' ==> r == []
    decreases |s|
  {
    if s == [] then []
    else if s[0] == '\n' then FirstLine(s[1 + LineLength(s[1..])..])
    else [s[0]] + FirstLine(s[1..])
  }

  /** The substitution keeps exactly the text before the first newline. */
  lemma {:induction false} FirstLineIsTextBeforeNewline(s: string)
    ensures FirstLine(s) == s[..LineLength(s)]
  {
    if s != [] && s[0] != '\n' {
      FirstLineIsTextBeforeNewline(s[1..]);
      assert s[..LineLength(s)] == [s[0]] + s[1..][..LineLength(s[1..])];
    }
  }

  /** Without a newline the filter returns its input unchanged. */
  lemma FirstLineWithoutNewline(s: string)
    requires '\n' !in s
    ensures FirstLine(s) == s
  {
    FirstLineIsTextBeforeNewline(s);
  }

  /** With a newline, the character right after the result is the first
      '\n' of `s`: the result stops exactly at that newline. */
  lemma FirstLineStopsAtNewline(s: string)
    requires '\n' in s
    ensures |FirstLine(s)| < |s|
    ensures s[|FirstLine(s)|] == '\n'
    ensures forall k :: 0 <= k < |FirstLine(s)| ==> s[k] != '\n'
  {
    FirstLineIsTextBeforeNewline(s);
  }

  /** Applying the filter twice is the same as applying it once. */
  lemma FirstLineIdempotent(s: string)
    ensures FirstLine(FirstLine(s)) == FirstLine(s)
  {
    FirstLineWithoutNewline(FirstLine(s));
  }

  /** Two sample inputs. */
  lemma FirstLineExamples()
    ensures FirstLine("a\nb\nc") == "a"
    ensures FirstLine("a") == "a"
  {
  }

  // ---------------------------------------------------------------------
  // Search path, file name and diagnostic
  // ---------------------------------------------------------------------

  /** `_get_template_dirs(type)`: the user override directory
      `USER_CONFIG_DIR/templates/<type>` first, then the local tree
      `rapport/templates/<type>`. */
  function TemplateDirs(userConfigDir: Path, typ: string): (dirs: seq<Path>)
    ensures |dirs| == 2 && |dirs[0]| == |userConfigDir| + 2
    ensures dirs[0][..|userConfigDir|] == userConfigDir
    ensures dirs[0][|userConfigDir|..] == ["templates", typ]
    ensures dirs[1] == ["rapport", "templates", typ]
  {
    [userConfigDir + ["templates", typ], ["rapport", "templates", typ]]
  }

  /** Every directory of a type's search path ends in that type's name, so
      two different types never share a directory. */
  lemma TemplateDirsDisjoint(userConfigDir: Path, t1: string, t2: string)
    requires t1 != t2
    ensures forall i, j :: 0 <= i < 2 && 0 <= j < 2 ==>
      TemplateDirs(userConfigDir, t1)[i] != TemplateDirs(userConfigDir, t2)[j]
  {
    forall i, j | 0 <= i < 2 && 0 <= j < 2
      ensures TemplateDirs(userConfigDir, t1)[i] != TemplateDirs(userConfigDir, t2)[j]
    {
      var d1, d2 := TemplateDirs(userConfigDir, t1)[i], TemplateDirs(userConfigDir, t2)[j];
      assert d1[|d1| - 1] == t1 && d2[|d2| - 1] == t2;
    }
  }

  /** The file name `get_template` asks for: `"{0}.{1}.jinja2".format(name, format)`. */
  function TemplateName(name: string, format: string): (file: string)
    ensures |file| == |name| + |format| + 8
    ensures file[..|name|] == name && file[|name|] == '.'
    ensures file[|name| + 1..|file| - 7] == format
    ensures file[|file| - 7..] == ".jinja2"
  {
    name + "." + format + ".jinja2"
  }

  /** The one-line diagnostic written when a template is missing:
      `"Missing template {0}/{1}!".format(type, template_name)`. */
  function MissingMessage(typ: string, file: string): (m: string)
    ensures |m| == |MissingPrefix| + |typ| + |file| + 2
    ensures m[..|MissingPrefix|] == MissingPrefix
    ensures m[|MissingPrefix|..|MissingPrefix| + |typ|] == typ
    ensures m[|MissingPrefix| + |typ|] == '/'
    ensures m[|MissingPrefix| + |typ| + 1..|m| - 1] == file
    ensures m[|m| - 1] == '!'
  {
    MissingPrefix + typ + "/" + file + "!"
  }

  /** Joining two parts with a separator that does not occur in the first
      part can be undone: the first separator marks the split. */
  lemma {:induction false} SplitAtFirst(a1: string, b1: string, a2: string, b2: string, sep: char)
    requires sep !in a1 && sep !in a2
    requires a1 + [sep] + b1 == a2 + [sep] + b2
    ensures a1 == a2 && b1 == b2
  {
    var w := a1 + [sep] + b1;
    assert forall k :: 0 <= k < |a1| ==> w[k] == a1[k] != sep;
    assert forall k :: 0 <= k < |a2| ==> w[k] == a2[k] != sep;
    assert w[|a1|] == sep && w[|a2|] == sep;
    assert a1 == w[..|a1|] == a2;
    assert b1 == w[|a1| + 1..] == b2;
  }

  /** For template names without a dot, different requests ask for different
      files (with a dot, `("a.b", "c")` and `("a", "b.c")` collide). */
  lemma TemplateNameInjective(n1: string, f1: string, n2: string, f2: string)
    requires '.' !in n1 && '.' !in n2
    requires TemplateName(n1, f1) == TemplateName(n2, f2)
    ensures n1 == n2 && f1 == f2
  {
    assert n1 + "." + (f1 + ".jinja2") == TemplateName(n1, f1);
    assert n2 + "." + (f2 + ".jinja2") == TemplateName(n2, f2);
    SplitAtFirst(n1, f1 + ".jinja2", n2, f2 + ".jinja2", '.');
    assert f1 == (f1 + ".jinja2")[..|f1|] == (f2 + ".jinja2")[..|f2|] == f2;
  }

  /** The diagnostic names the missing template unambiguously: for a type
      without '/', the type and the file name can be read back from it. */
  lemma MissingMessageIdentifies(t1: string, file1: string, t2: string, file2: string)
    requires '/' !in t1 && '/' !in t2
    requires MissingMessage(t1, file1) == MissingMessage(t2, file2)
    ensures t1 == t2 && file1 == file2
  {
    var m := MissingMessage(t1, file1);
    var p := |MissingPrefix|;
    assert t1 + "/" + (file1 + "!") == m[p..];
    assert t2 + "/" + (file2 + "!") == m[p..];
    SplitAtFirst(t1, file1 + "!", t2, file2 + "!", '/');
    assert file1 == (file1 + "!")[..|file1|] == (file2 + "!")[..|file2|] == file2;
  }

  // ---------------------------------------------------------------------
  // Rendering environments and the per-type cache
  // ---------------------------------------------------------------------

  /** The custom filters `init` registers, by the function they name. */
  datatype Filter = FirstLineFilter | JsonFilter | SubFilter | SubnFilter

  /** What the model keeps of a jinja2 environment: the search path of its
      file-system loader and its registered filters. */
  datatype Env = Env(searchPath: seq<Path>, filters: map<string, Filter>)

  /** A template handle: the file name that resolved through a type's
      search path. */
  datatype Handle = Handle(typ: string, file: string, searchPath: seq<Path>)

  /** What `get_template` does with a lookup: it returns a handle or `None`,
      or the `KeyError` of `_JINJA2_ENV[type]` escapes to the caller. */
  datatype Outcome = Returned(handle: Option<Handle>) | KeyError(key: string)

  /** The environment `init` builds for one type. */
  function MakeEnv(userConfigDir: Path, typ: string): (e: Env)
    ensures e.searchPath == TemplateDirs(userConfigDir, typ)
    ensures e.filters.Keys == {"firstline", "json", "sub", "subn"}
    ensures e.filters["firstline"] == FirstLineFilter && e.filters["json"] == JsonFilter
    ensures e.filters["sub"] == SubFilter && e.filters["subn"] == SubnFilter
  {
    Env(TemplateDirs(userConfigDir, typ),
        map["firstline" := FirstLineFilter, "json" := JsonFilter,
            "sub" := SubFilter, "subn" := SubnFilter])
  }

  /** The cache contents `init` produces from an empty cache. */
  function InitialEnvs(userConfigDir: Path): (envs: map<string, Env>)
    ensures envs.Keys == {"plugin", "email", "web"}
    ensures forall typ :: typ in envs ==> envs[typ] == MakeEnv(userConfigDir, typ)
  {
    map typ | typ in TemplateTypes :: MakeEnv(userConfigDir, typ)
  }

  /** `envs` is `start` after `init` has stored the environments of the
      first `i` types. */
  ghost predicate InitVisited(start: map<string, Env>, envs: map<string, Env>, userConfigDir: Path, i: nat)
    requires i <= |TemplateTypes|
  {
    && (forall typ :: typ in envs <==> typ in start || typ in TemplateTypes[..i])
    && forall typ :: typ in envs ==>
         envs[typ] == if typ in TemplateTypes[..i] then MakeEnv(userConfigDir, typ) else start[typ]
  }

  /** Storing the next type's environment extends what `init` has visited. */
  lemma InitVisitsNext(start: map<string, Env>, envs: map<string, Env>, userConfigDir: Path, i: nat)
    requires i < |TemplateTypes| && InitVisited(start, envs, userConfigDir, i)
    ensures InitVisited(start, envs[TemplateTypes[i] := MakeEnv(userConfigDir, TemplateTypes[i])], userConfigDir, i + 1)
  {
    assert TemplateTypes[..i + 1] == TemplateTypes[..i] + [TemplateTypes[i]];
  }

  /** Once every type is visited, the cache is `start` overwritten by the
      initial environments. */
  lemma InitVisitedAll(start: map<string, Env>, envs: map<string, Env>, userConfigDir: Path)
    requires InitVisited(start, envs, userConfigDir, |TemplateTypes|)
    ensures envs == start + InitialEnvs(userConfigDir)
  {
    var full := start + InitialEnvs(userConfigDir);
    assert TemplateTypes[..|TemplateTypes|] == TemplateTypes;
    assert forall t :: t in envs <==> t in full;
    assert envs.Keys == full.Keys;
  }

  /** The module-level `_JINJA2_ENV` dictionary, with `init` and
      `get_template`. `USER_CONFIG_DIR` comes from the configuration module
      and is fixed when the cache is created. */
  class TemplateCache {
    const userConfigDir: Path
    var envs: map<string, Env>
    /** How many times `init` has run on this cache. Each run builds new
        environment objects, so a rerun is observable even when the
        rebuilt entries are equal to the old ones. */
    ghost var initRuns: nat

    /** The cache is either still empty or fully initialised. */
    ghost predicate Valid()
      reads this
    {
      envs == map[] || envs == InitialEnvs(userConfigDir)
    }

    /** `_JINJA2_ENV = {}` at module load. */
    constructor (userConfigDir: Path)
      ensures this.userConfigDir == userConfigDir
      ensures envs == map[] && Valid()
      ensures initRuns == 0
    {
      this.userConfigDir := userConfigDir;
      envs := map[];
      initRuns := 0;
    }

    /** `init()`: for each type, build an environment over the type's search
        path, register the four filters and store it under the type. Keys
        already present are overwritten, others are kept. */
    method Init()
      modifies this
      ensures envs == old(envs) + InitialEnvs(userConfigDir)
      ensures old(Valid()) ==> envs == InitialEnvs(userConfigDir)
      ensures initRuns == old(initRuns) + 1
    {
      initRuns := initRuns + 1;
      ghost var start, runs := envs, initRuns;
      var i := 0;
      while i < |TemplateTypes|
        invariant 0 <= i <= |TemplateTypes|
        invariant initRuns == runs
        invariant InitVisited(start, envs, userConfigDir, i)
      {
        var typ := TemplateTypes[i];
        var filters: map<string, Filter> := map[];
        filters := filters["firstline" := FirstLineFilter];
        filters := filters["json" := JsonFilter];
        filters := filters["sub" := SubFilter];
        filters := filters["subn" := SubnFilter];
        InitVisitsNext(start, envs, userConfigDir, i);
        envs := envs[typ := Env(TemplateDirs(userConfigDir, typ), filters)];
        i := i + 1;
      }
      InitVisitedAll(start, envs, userConfigDir);
    }

    /** `get_template(name, format, type)`: initialise the cache if it is
        empty, then look `name.format.jinja2` up in the type's environment.
        `resolves` stands for jinja2's loader: whether the file name
        resolves through the given search path. `stderr` is what is printed
        to the error stream. */
    method GetTemplate(resolves: (seq<Path>, string) -> bool, name: string,
                       format: string := DefaultFormat, typ: string := DefaultType)
      returns (r: Outcome, stderr: string)
      requires Valid()
      modifies this
      ensures Valid() && envs == InitialEnvs(userConfigDir)
      ensures old(envs) != map[] ==> envs == old(envs)
      ensures initRuns == old(initRuns) + (if old(envs) == map[] then 1 else 0)
      ensures typ !in TemplateTypes ==> r == KeyError(typ) && stderr == ""
      ensures typ in TemplateTypes ==>
        var file := TemplateName(name, format);
        var dirs := TemplateDirs(userConfigDir, typ);
        if resolves(dirs, file)
        then r == Returned(Some(Handle(typ, file, dirs))) && stderr == ""
        else r == Returned(None) && stderr == MissingMessage(typ, file) + "\n"
    {
      if envs == map[] {
        Init();
      }
      var file := TemplateName(name, format);
      if typ !in envs {
        return KeyError(typ), "";
      }
      var env := envs[typ];
      if resolves(env.searchPath, file) {
        r, stderr := Returned(Some(Handle(typ, file, env.searchPath))), "";
      } else {
        r, stderr := Returned(None), MissingMessage(typ, file) + "\n";
      }
    }
  }

  /** Asking twice for the same template, with the file system (`resolves`)
      unchanged in between, gives the same answer; the second call finds
      the cache populated, leaves it as it is and does not run `init`. */
  method RepeatedLookup(cache: TemplateCache, resolves: (seq<Path>, string) -> bool,
                        name: string, format: string, typ: string)
    returns (r1: Outcome, r2: Outcome)
    requires cache.Valid()
    modifies cache
    ensures r1 == r2
    ensures cache.envs == InitialEnvs(cache.userConfigDir)
    ensures cache.initRuns == old(cache.initRuns) + (if old(cache.envs) == map[] then 1 else 0)
  {
    var err1, err2;
    r1, err1 := cache.GetTemplate(resolves, name, format, typ);
    ghost var between, runs := cache.envs, cache.initRuns;
    r2, err2 := cache.GetTemplate(resolves, name, format, typ);
    assert cache.envs == between && cache.initRuns == runs;
  }
}
