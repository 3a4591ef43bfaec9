/**
 * Dependency: a (group, artifact, version, type) coordinate with an
 * optional alias, and the process-wide cache of them keyed by the
 * coordinate's unique name `group/artifact/version/type`.
 */
module Dependencies {
  import opened Wrappers
  import opened Text
  import opened Records

  datatype Dependency = Dependency(group: string, artifact: string, version: NString, processor: string, alias: NString)

  /** getUniqueName: the four parts joined by '/', a null version rendered as "null". */
  function UniqueName(group: string, artifact: string, version: NString, processor: string): string {
    Slashed(group, Slashed(artifact, Slashed(Str(version), processor)))
  }

  /** Two texts joined by '/'. */
  function Slashed(a: string, b: string): string {
    a + "/" + b
  }

  /** The cache key of a dependency: the unique name of its own coordinates. */
  function Key(d: Dependency): string {
    UniqueName(d.group, d.artifact, d.version, d.processor)
  }

  lemma SlashAfter(a: string, b: string)
    ensures |a + "/" + b| > |a| && (a + "/" + b)[|a|] == '/'
    ensures forall i :: 0 <= i < |a| ==> (a + "/" + b)[i] == a[i]
  {
  }

  /** A slash-free text is recovered from the front of a `/`-join. */
  lemma SplitAtSlash(a: string, b: string, c: string, d: string)
    requires '/' !in a && '/' !in c
    requires a + "/" + b == c + "/" + d
    ensures a == c && b == d
  {
    var s := a + "/" + b;
    SlashAfter(a, b);
    SlashAfter(c, d);
    if |a| < |c| {
      assert false;
    } else if |c| < |a| {
      assert false;
    }
    assert a == s[..|a|] && c == s[..|c|];
    assert b == s[|a| + 1..] && d == s[|c| + 1..];
  }

  /**
   * Unique names are unique as long as no part but the type contains a
   * slash: equal names come from equal coordinates (a null and a literal
   * "null" version render alike).
   */
  lemma UniqueNameInjective(g1: string, a1: string, v1: NString, p1: string,
                            g2: string, a2: string, v2: NString, p2: string)
    requires '/' !in g1 && '/' !in a1 && '/' !in Str(v1)
    requires '/' !in g2 && '/' !in a2 && '/' !in Str(v2)
    requires UniqueName(g1, a1, v1, p1) == UniqueName(g2, a2, v2, p2)
    ensures g1 == g2 && a1 == a2 && Str(v1) == Str(v2) && p1 == p2
  {
    SplitAtSlash(g1, Slashed(a1, Slashed(Str(v1), p1)), g2, Slashed(a2, Slashed(Str(v2), p2)));
    SplitAtSlash(a1, Slashed(Str(v1), p1), a2, Slashed(Str(v2), p2));
    SplitAtSlash(Str(v1), p1, Str(v2), p2);
  }

  /** The four-argument constructor: no alias. */
  function NewDependency(group: string, artifact: string, version: NString, processor: string): (d: Dependency)
    ensures d.alias.None? && Key(d) == UniqueName(group, artifact, version, processor)
  {
    Dependency(group, artifact, version, processor, None)
  }

  /**
   * The five-argument constructor as written: it delegates with the alias
   * in the version position, so the version argument is dropped.
   */
  function WithAlias(group: string, artifact: string, version: NString, processor: string, alias: NString): (d: Dependency)
    ensures d.version == alias && d.alias == alias
    ensures d.group == group && d.artifact == artifact && d.processor == processor
  {
    Dependency(group, artifact, alias, processor, alias)
  }

  /** The five-argument constructor as evidently intended: the version is kept. */
  function WithAliasKeepingVersion(group: string, artifact: string, version: NString, processor: string, alias: NString)
    : (d: Dependency)
    ensures d.version == version && d.alias == alias
    ensures d.group == group && d.artifact == artifact && d.processor == processor
  {
    Dependency(group, artifact, version, processor, alias)
  }

  /** getAlias: the alias when set and non-empty, the unique name otherwise. */
  function GetAlias(d: Dependency): string {
    if d.alias.Some? && d.alias.value != [] then d.alias.value else Key(d)
  }

  /**
   * A dependency is known by its alias when it has a non-empty one and by
   * the unique name of its coordinates otherwise; without an alias, two
   * dependencies whose parts contain no '/' share a name only when their
   * coordinates agree.
   */
  lemma GetAliasFallsBack(g: string, a: string, v: NString, p: string, alias: NString, d': Dependency)
    ensures GetAlias(NewDependency(g, a, v, p)) == UniqueName(g, a, v, p)
    ensures alias.Some? && alias.value != [] ==> GetAlias(WithAliasKeepingVersion(g, a, v, p, alias)) == alias.value
    ensures alias.None? || alias == Some([]) ==> GetAlias(WithAliasKeepingVersion(g, a, v, p, alias)) == UniqueName(g, a, v, p)
    ensures d'.alias.None? && '/' !in g && '/' !in a && '/' !in Str(v)
            && '/' !in d'.group && '/' !in d'.artifact && '/' !in Str(d'.version)
            && GetAlias(d') == GetAlias(NewDependency(g, a, v, p))
            ==> d'.group == g && d'.artifact == a && Str(d'.version) == Str(v) && d'.processor == p
  {
    if d'.alias.None? && '/' !in g && '/' !in a && '/' !in Str(v)
       && '/' !in d'.group && '/' !in d'.artifact && '/' !in Str(d'.version)
       && GetAlias(d') == GetAlias(NewDependency(g, a, v, p))
    {
      UniqueNameInjective(d'.group, d'.artifact, d'.version, d'.processor, g, a, v, p);
    }
  }

  /** As written, an aliased dependency without a usable alias reports the alias text where its version belongs. */
  lemma WithAliasLosesVersion()
    ensures GetAlias(WithAlias("g", "a", Some("1.0"), "P", None)) == "g/a/null/P"
    ensures GetAlias(WithAliasKeepingVersion("g", "a", Some("1.0"), "P", None)) == "g/a/1.0/P"
  {
  }

  /** With the version kept, the fallback name is the unique name of the real coordinates. */
  lemma AliasKeepingVersionFallsBack(group: string, artifact: string, version: NString, processor: string, alias: NString)
    ensures var d := WithAliasKeepingVersion(group, artifact, version, processor, alias);
      GetAlias(d) == if alias.Some? && alias.value != [] then alias.value
                     else UniqueName(group, artifact, version, processor)
  {
  }

  /** The cache after find(bundle, type): a new entry only when the unique name is not cached yet. */
  function AfterFind(cached: map<string, Dependency>, b: Bundle, t: string): (r: map<string, Dependency>)
    ensures UniqueName(b.group, b.artifact, Some(b.version), t) in r
    ensures r.Keys == cached.Keys + {UniqueName(b.group, b.artifact, Some(b.version), t)}
    ensures forall k :: k in cached ==> r[k] == cached[k]
  {
    var key := UniqueName(b.group, b.artifact, Some(b.version), t);
    if key in cached then cached else cached[key := NewDependency(b.group, b.artifact, Some(b.version), t)]
  }

  /** Every cache entry is alias-free and filed under its own unique name. */
  ghost predicate WellKeyed(cached: map<string, Dependency>) {
    forall k :: k in cached ==> cached[k].alias.None? && Key(cached[k]) == k
  }

  /** A second find with the same coordinates changes nothing. */
  lemma FindIdempotent(cached: map<string, Dependency>, b: Bundle, t: string)
    ensures AfterFind(AfterFind(cached, b, t), b, t) == AfterFind(cached, b, t)
  {
  }

  /** find keeps the cache well keyed. */
  lemma FindKeepsWellKeyed(cached: map<string, Dependency>, b: Bundle, t: string)
    requires WellKeyed(cached)
    ensures WellKeyed(AfterFind(cached, b, t))
  {
  }

  /** Dependency.cachedDeps with the static operations on it. */
  class DependencyCache {
    var cached: map<string, Dependency>

    ghost predicate Valid()
      reads this
    {
      WellKeyed(cached)
    }

    constructor ()
      ensures Valid() && cached == map[]
    {
      cached := map[];
    }

    /** find: the cached dependency for the coordinates, created on the first request. */
    method Find(b: Bundle, t: string) returns (d: Dependency)
      requires Valid()
      modifies this
      ensures Valid()
      ensures cached == AfterFind(old(cached), b, t)
      ensures d == cached[UniqueName(b.group, b.artifact, Some(b.version), t)]
      ensures d.alias.None? && Key(d) == UniqueName(b.group, b.artifact, Some(b.version), t)
      ensures UniqueName(b.group, b.artifact, Some(b.version), t) !in old(cached) ==>
        d == NewDependency(b.group, b.artifact, Some(b.version), t)
    {
      var key := UniqueName(b.group, b.artifact, Some(b.version), t);
      if key !in cached {
        cached := cached[key := NewDependency(b.group, b.artifact, Some(b.version), t)];
      }
      FindKeepsWellKeyed(old(cached), b, t);
      d := cached[key];
    }

    /** findAlias: a plain lookup by key; a null key finds nothing. */
    function FindAlias(alias: NString): (r: Option<Dependency>)
      reads this
      ensures r.Some? <==> alias.Some? && alias.value in cached
      ensures r.Some? ==> r.value == cached[alias.value]
    {
      if alias.None? then None else Get(cached, alias.value)
    }

    /**
     * writeDependencies: visits the entries in ascending key order (the
     * writing of each entry's text is not modelled).
     */
    method WriteDependencies() returns (visited: seq<Dependency>)
      requires Valid()
      ensures |visited| == |cached|
      ensures forall d :: d in visited <==> d in cached.Values
      ensures forall i, j :: 0 <= i < j < |visited| ==> Below(Key(visited[i]), Key(visited[j]))
    {
      var depNames := SortedElements(cached.Keys);
      visited := ReadInOrder(cached, depNames);
      VisitedInKeyOrder(cached, depNames, visited);
    }
  }

  /** The loop of writeDependencies: the entry under each key, in the order of the keys. */
  method ReadInOrder(m: map<string, Dependency>, keys: seq<string>) returns (visited: seq<Dependency>)
    requires forall k :: k in keys ==> k in m
    ensures |visited| == |keys|
    ensures forall j :: 0 <= j < |keys| ==> visited[j] == m[keys[j]]
  {
    visited := [];
    var i := 0;
    while i < |keys|
      invariant 0 <= i <= |keys|
      invariant |visited| == i
      invariant forall j :: 0 <= j < i ==> visited[j] == m[keys[j]]
    {
      visited := visited + [m[keys[i]]];
      i := i + 1;
    }
  }

  /** The entries read in the order of the sorted keys are the cache's values, each once, in key order. */
  lemma VisitedInKeyOrder(cached: map<string, Dependency>, depNames: seq<string>, visited: seq<Dependency>)
    requires WellKeyed(cached)
    requires |depNames| == |cached| && StrictlySorted(depNames)
    requires forall x :: x in depNames <==> x in cached.Keys
    requires |visited| == |depNames| && forall j :: 0 <= j < |depNames| ==> visited[j] == cached[depNames[j]]
    ensures |visited| == |cached|
    ensures forall d :: d in visited <==> d in cached.Values
    ensures forall i, j :: 0 <= i < j < |visited| ==> Below(Key(visited[i]), Key(visited[j]))
  {
    forall j | 0 <= j < |visited| ensures Key(visited[j]) == depNames[j] {
      assert depNames[j] in cached;
    }
    forall d | d in cached.Values ensures d in visited {
      var k :| k in cached && cached[k] == d;
      var j :| 0 <= j < |depNames| && depNames[j] == k;
      assert visited[j] == d;
    }
  }

  /** Round trip: a cached dependency is found again by its alias. */
  lemma FindAliasOfGetAlias(cached: map<string, Dependency>, k: string)
    requires WellKeyed(cached) && k in cached
    ensures GetAlias(cached[k]) == k
  {
  }
}
