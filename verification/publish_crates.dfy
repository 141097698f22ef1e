/** Publishing the release set to a package index: validation, and resumable ordered upload. */
module PublishCrates {
  import opened Common

  /** Dependencies come before their consumers. */
  const PACKAGES: seq<string> := [
    "abyss-plugin-protocol", "abyss-storage", "abyss-mitm", "abyss-agent-hook", "abyss-broker", "abyss-sdk",
    "abyss-terminal-auth", "abyss-data-client", "abyss-query-cli"]

  datatype Dependency = Dependency(
    name: string, kind: Option<string>, path: Option<string>, req: string, source: Option<string>)

  /** `publish` is absent if any registry is allowed. */
  datatype Package = Package(
    id: string, name: string, version: string, publish: Option<seq<string>>, description: Option<string>,
    readme: Option<string>, dependencies: seq<Dependency>)

  datatype ReleaseError =
    | TagDrift | WrongReleaseSet | WrongPackage(name: string) | Undocumented(name: string)
    | Unordered(name: string, dependency: string) | WrongRequirement(name: string, dependency: string)
    | GitDependency(name: string) | NotReady | LookupFailed(name: string) | Yanked(name: string)
    | UploadFailed(name: string)

  // ---- Validation ----

  /** Workspace packages by name; of two with the same name the later one counts. */
  function ByName(packages: seq<Package>, members: set<string>): map<string, Package> {
    if packages == [] then map[]
    else
      var rest := ByName(packages[..|packages| - 1], members);
      if Last(packages).id in members then rest[Last(packages).name := Last(packages)] else rest
  }

  function Publishable(packages: map<string, Package>): set<string> {
    set name | name in packages && packages[name].publish != Some([])
  }

  predicate Given(text: Option<string>) {
    text.Some? && text.value != ""
  }

  /** A dependency that the published crate will need from the same release. */
  predicate IsRelease(d: Dependency) {
    d.kind != Some("dev") && d.path.Some?
  }

  predicate FromGit(d: Dependency) {
    d.kind != Some("dev") && d.source.Some? && "git+" <= d.source.value
  }

  predicate Requires(d: Dependency, version: string) {
    d.req in {version, "^" + version, "=" + version}
  }

  predicate Orderly(d: Dependency, preceding: set<string>, version: string) {
    (IsRelease(d) ==> d.name in preceding && Requires(d, version)) && !FromGit(d)
  }

  predicate WellDescribed(p: Package, version: string) {
    p.version == version && p.publish == Some(["crates-io"]) && Given(p.description) && Given(p.readme)
  }

  predicate Releasable(p: Package, preceding: set<string>, version: string) {
    WellDescribed(p, version) && forall d :: d in p.dependencies ==> Orderly(d, preceding, version)
  }

  predicate TagMatches(tag: Option<string>, version: string) {
    tag.None? || tag.value == "v" + version
  }

  /** The release set is exactly right, and each package depends only on earlier ones of it. */
  ghost predicate ValidRelease(version: string, packages: map<string, Package>, tag: Option<string>) {
    && TagMatches(tag, version)
    && Publishable(packages) == Elements(PACKAGES)
    && forall k :: 0 <= k < |PACKAGES| ==>
         PACKAGES[k] in packages && Releasable(packages[PACKAGES[k]], Elements(PACKAGES[..k]), version)
  }

  /** The same in plain terms: tag, release set, and for each package its own data and its dependencies. */
  lemma ValidReleaseMeans(version: string, packages: map<string, Package>, tag: Option<string>)
    ensures ValidRelease(version, packages, tag) <==>
              && tag in {None, Some("v" + version)}
              && (forall name :: name in PACKAGES <==> name in packages && packages[name].publish != Some([]))
              && forall k :: 0 <= k < |PACKAGES| ==> Described(packages, k, version) && Pinned(packages, k, version)
  {
    hide PACKAGES;
    if forall name :: name in PACKAGES <==> name in packages && packages[name].publish != Some([]) {
      assert Publishable(packages) == Elements(PACKAGES);
    }
    if Publishable(packages) == Elements(PACKAGES) {
      forall name
        ensures name in PACKAGES <==> name in packages && packages[name].publish != Some([])
      {
        assert name in Publishable(packages) <==> name in Elements(PACKAGES);
      }
    }
    forall k | 0 <= k < |PACKAGES| && PACKAGES[k] in packages
      ensures Releasable(packages[PACKAGES[k]], Elements(PACKAGES[..k]), version) <==>
              Described(packages, k, version) && Pinned(packages, k, version)
    {
      ReleasableMeans(packages, k, version);
    }
  }

  predicate Described(packages: map<string, Package>, k: nat, version: string)
    requires k < |PACKAGES|
  {
    PACKAGES[k] in packages
    && var p := packages[PACKAGES[k]];
    && p.version == version && p.publish == Some(["crates-io"])
    && p.description !in {None, Some("")} && p.readme !in {None, Some("")}
  }

  /** Of the dependencies other than dev ones, those by path are earlier ones of this release; none is from git. */
  predicate Pinned(packages: map<string, Package>, k: nat, version: string)
    requires k < |PACKAGES|
  {
    PACKAGES[k] in packages
    && forall d :: d in packages[PACKAGES[k]].dependencies && d.kind != Some("dev") ==>
         && (d.path.Some? ==> d.name in PACKAGES[..k])
         && (d.path.Some? ==> d.req == version || d.req == "^" + version || d.req == "=" + version)
         && (d.source.Some? && |d.source.value| >= 4 ==> d.source.value[..4] != "git+")
  }

  lemma ReleasableMeans(packages: map<string, Package>, k: nat, version: string)
    requires k < |PACKAGES| && PACKAGES[k] in packages
    ensures Releasable(packages[PACKAGES[k]], Elements(PACKAGES[..k]), version) <==>
            Described(packages, k, version) && Pinned(packages, k, version)
  {
    hide PACKAGES;
    var p := packages[PACKAGES[k]];
    assert |"git+"| == 4;
    forall d | d in p.dependencies
      ensures Orderly(d, Elements(PACKAGES[..k]), version) <==>
              (d.kind != Some("dev") ==>
                && (d.path.Some? ==> d.name in PACKAGES[..k])
                && (d.path.Some? ==> d.req == version || d.req == "^" + version || d.req == "=" + version)
                && (d.source.Some? && |d.source.value| >= 4 ==> d.source.value[..4] != "git+"))
    {
    }
  }

  /** Of several workspace packages with one name the last one counts; packages outside the workspace never do. */
  lemma {:induction false} ByNameIsLast(packages: seq<Package>, members: set<string>, name: string)
    ensures name !in ByName(packages, members) ==>
              forall i :: 0 <= i < |packages| ==> packages[i].id !in members || packages[i].name != name
    ensures name in ByName(packages, members) ==>
              exists i :: 0 <= i < |packages| && packages[i] == ByName(packages, members)[name]
                && packages[i].id in members && packages[i].name == name
                && forall j :: i < j < |packages| ==> packages[j].id !in members || packages[j].name != name
  {
    if packages != [] {
      var front, p := packages[..|packages| - 1], Last(packages);
      ByNameIsLast(front, members, name);
      assert packages == front + [p];
      if p.id in members && p.name == name {
        assert packages[|packages| - 1] == ByName(packages, members)[name];
      } else if name in ByName(front, members) {
        var i :| 0 <= i < |front| && front[i] == ByName(front, members)[name]
          && front[i].id in members && front[i].name == name
          && forall j :: i < j < |front| ==> front[j].id !in members || front[j].name != name;
        assert packages[i] == ByName(packages, members)[name];
      }
    }
  }

  method CollectByName(packages: seq<Package>, members: set<string>) returns (byName: map<string, Package>)
    ensures byName == ByName(packages, members)
  {
    byName := map[];
    for i := 0 to |packages|
      invariant byName == ByName(packages[..i], members)
    {
      assert packages[..i + 1][..i] == packages[..i];
      if packages[i].id in members {
        byName := byName[packages[i].name := packages[i]];
      }
    }
    assert packages[..|packages|] == packages;
  }

  /** Checks one package's dependencies in order. */
  method CheckDependencies(p: Package, preceding: set<string>, version: string) returns (r: Option<ReleaseError>)
    ensures r.None? <==> forall d :: d in p.dependencies ==> Orderly(d, preceding, version)
  {
    hide Requires;
    for i := 0 to |p.dependencies|
      invariant forall j :: 0 <= j < i ==> Orderly(p.dependencies[j], preceding, version)
    {
      var d := p.dependencies[i];
      assert d in p.dependencies;
      if d.kind == Some("dev") {
        continue;
      }
      if d.path.Some? {
        if d.name !in preceding {
          return Some(Unordered(p.name, d.name));
        }
        if !Requires(d, version) {
          assert !Orderly(d, preceding, version);
          return Some(WrongRequirement(p.name, d.name));
        }
      }
      if FromGit(d) {
        return Some(GitDependency(p.name));
      }
    }
    r := None;
  }

  /** Accepts exactly the valid releases. */
  method ValidateRelease(version: string, packages: seq<Package>, members: set<string>, tag: Option<string>)
    returns (r: Result<string, ReleaseError>)
    ensures r.Ok? <==> ValidRelease(version, ByName(packages, members), tag)
    ensures r.Ok? ==> r.value == version
  {
    hide WellDescribed, Orderly, PACKAGES;
    if !TagMatches(tag, version) {
      return Err(TagDrift);
    }
    var byName := CollectByName(packages, members);
    if Publishable(byName) != Elements(PACKAGES) {
      return Err(WrongReleaseSet);
    }
    var preceding: set<string> := {};
    for k := 0 to |PACKAGES|
      invariant preceding == Elements(PACKAGES[..k])
      invariant forall j :: 0 <= j < k ==>
        PACKAGES[j] in byName && Releasable(byName[PACKAGES[j]], Elements(PACKAGES[..j]), version)
    {
      var name := PACKAGES[k];
      assert name in Elements(PACKAGES);
      var p := byName[name];
      var problem := CheckPackage(p, preceding, version);
      if problem.Some? {
        return Err(problem.value);
      }
      assert PACKAGES[..k + 1] == PACKAGES[..k] + [name];
      preceding := preceding + {name};
    }
    r := Ok(version);
  }

  method CheckPackage(p: Package, preceding: set<string>, version: string) returns (r: Option<ReleaseError>)
    ensures r.None? <==> Releasable(p, preceding, version)
  {
    hide Orderly;
    if p.version != version || p.publish != Some(["crates-io"]) {
      return Some(WrongPackage(p.name));
    }
    if !Given(p.description) || !Given(p.readme) {
      return Some(Undocumented(p.name));
    }
    r := CheckDependencies(p, preceding, version);
  }

  // ---- Publication ----

  /** One version's entries in the index, by name, with whether they are yanked; and all uploads made. */
  datatype Registry = Registry(index: map<string, bool>, uploads: seq<string>)

  const NOTHING: Registry := Registry(map[], [])

  /** How an upload ends: it may fail before or after the package has become visible. */
  datatype Attempt = Succeeds | FailsBefore | FailsAfter

  function Missing(names: seq<string>, index: map<string, bool>): seq<string> {
    if names == [] then []
    else (if names[0] in index then [] else [names[0]]) + Missing(names[1..], index)
  }

  predicate HasYanked(index: map<string, bool>) {
    exists name :: name in PACKAGES && name in index && index[name]
  }

  /** What any run may do: upload a first part of what is missing, in order, all of it on success. */
  ghost predicate Publishes(before: Registry, after: Registry, ok: bool) {
    exists m: nat :: Uploaded(before, after, m)
      && (ok ==> m == |Missing(PACKAGES, before.index)|)
      && (HasYanked(before.index) ==> m == 0 && !ok)
  }

  ghost predicate Uploaded(before: Registry, after: Registry, m: nat) {
    var missing := Missing(PACKAGES, before.index);
    && m <= |missing|
    && after.uploads == before.uploads + missing[..m]
    && after.index.Keys == before.index.Keys + Elements(missing[..m])
    && forall name :: name in after.index ==> after.index[name] == (name in before.index && before.index[name])
  }

  predicate AllSucceed(names: seq<string>, attempts: string -> Attempt) {
    forall name :: name in names ==> attempts(name).Succeeds?
  }

  lemma MissingAppend(a: seq<string>, name: string, index: map<string, bool>)
    ensures Missing(a + [name], index) == Missing(a, index) + if name in index then [] else [name]
  {
    if a == [] {
      assert a + [name] == [name];
    } else {
      assert (a + [name])[1..] == a[1..] + [name];
      MissingAppend(a[1..], name, index);
    }
  }

  lemma {:induction false} MissingPrefix(a: seq<string>, b: seq<string>, index: map<string, bool>)
    ensures Missing(a, index) <= Missing(a + b, index)
  {
    if a != [] {
      assert (a + b)[1..] == a[1..] + b;
      MissingPrefix(a[1..], b, index);
    } else {
      assert a + b == b;
    }
  }

  class CratesIndex {
    var index: map<string, bool>
    var uploads: seq<string>

    function View(): Registry
      reads this
    {
      Registry(index, uploads)
    }

    constructor (index: map<string, bool>)
      ensures this.index == index && uploads == []
    {
      this.index, uploads := index, [];
    }

    method PublishedVersion(name: string, unreachable: bool) returns (r: Result<bool, ReleaseError>)
      ensures r == if unreachable then Err(LookupFailed(name))
                   else if name in index && index[name] then Err(Yanked(name))
                   else Ok(name in index)
    {
      if unreachable {
        return Err(LookupFailed(name));
      }
      if name in index {
        if index[name] {
          return Err(Yanked(name));
        }
        return Ok(true);
      }
      r := Ok(false);
    }

    method CargoPublish(name: string, attempt: Attempt) returns (ok: bool)
      modifies this
      ensures ok <==> attempt.Succeeds?
      ensures attempt.FailsBefore? ==> View() == old(View())
      ensures !attempt.FailsBefore? ==> View() == Registry(old(index)[name := false], old(uploads) + [name])
    {
      if attempt != FailsBefore {
        index := index[name := false];
        uploads := uploads + [name];
      }
      ok := attempt.Succeeds?;
    }

    /** Looks every package up before anything is uploaded. */
    method LookUpAll(unreachable: set<string>) returns (r: Result<map<string, bool>, ReleaseError>)
      ensures r.Ok? <==> !HasYanked(index) && forall name :: name in PACKAGES ==> name !in unreachable
      ensures r.Ok? ==> forall name :: name in PACKAGES ==> name in r.value && (r.value[name] <==> name in index)
    {
      hide PACKAGES;
      var existing: map<string, bool> := map[];
      for k := 0 to |PACKAGES|
        invariant forall j :: 0 <= j < k ==> PACKAGES[j] in existing && PACKAGES[j] !in unreachable
        invariant forall j :: 0 <= j < k ==> !(PACKAGES[j] in index && index[PACKAGES[j]])
        invariant forall name :: name in existing ==> (existing[name] <==> name in index)
      {
        var found := PublishedVersion(PACKAGES[k], PACKAGES[k] in unreachable);
        if found.Err? {
          assert PACKAGES[k] in PACKAGES;
          return Err(found.error);
        }
        existing := existing[PACKAGES[k] := found.value];
      }
      r := Ok(existing);
    }

    /**
     * Uploads what is missing, in order, until an upload fails. It succeeds exactly if the checkout is
     * ready, every lookup answers, nothing is yanked, and every missing package can be uploaded.
     */
    method PublishRelease(ready: bool, unreachable: set<string>, attempts: string -> Attempt)
      returns (r: Result<(), ReleaseError>)
      modifies this
      ensures Publishes(old(View()), View(), r.Ok?)
      ensures r.Ok? <==>
        && ready && !HasYanked(old(index)) && (forall name :: name in PACKAGES ==> name !in unreachable)
        && AllSucceed(Missing(PACKAGES, old(index)), attempts)
    {
      hide PACKAGES, HasYanked;
      ghost var before := View();
      assert Uploaded(before, before, 0) by { assert Missing(PACKAGES, index)[..0] == []; }
      if !ready {
        return Err(NotReady);
      }
      var existing := LookUpAll(unreachable);
      if existing.Err? {
        return Err(existing.error);
      }
      ghost var m: nat := 0;
      for k := 0 to |PACKAGES|
        invariant m == |Missing(PACKAGES[..k], before.index)| && Uploaded(before, View(), m)
        invariant AllSucceed(Missing(PACKAGES[..k], before.index), attempts)
      {
        var name := PACKAGES[k];
        assert PACKAGES[..k + 1] == PACKAGES[..k] + [name];
        MissingAppend(PACKAGES[..k], name, before.index);
        MissingPrefix(PACKAGES[..k + 1], PACKAGES[k + 1..], before.index);
        assert PACKAGES[..k + 1] + PACKAGES[k + 1..] == PACKAGES;
        if existing.value[name] {
          continue;
        }
        ghost var now := View();
        var ok := CargoPublish(name, attempts(name));
        if attempts(name) != FailsBefore {
          OneMore(before, now, View(), name, m);
          m := m + 1;
        }
        if !ok {
          assert name in Missing(PACKAGES[..k + 1], before.index);
          return Err(UploadFailed(name));
        }
      }
      assert PACKAGES[..|PACKAGES|] == PACKAGES;
      r := Ok(());
    }
  }

  lemma OneMore(before: Registry, now: Registry, after: Registry, name: string, m: nat)
    requires Uploaded(before, now, m)
    requires name !in before.index
    requires m < |Missing(PACKAGES, before.index)| && Missing(PACKAGES, before.index)[m] == name
    requires after == Registry(now.index[name := false], now.uploads + [name])
    ensures Uploaded(before, after, m + 1)
  {
    hide PACKAGES, Missing;
    var missing := Missing(PACKAGES, before.index);
    assert missing[..m + 1] == missing[..m] + [name];
  }

  // ---- Any sequence of runs ----

  /** The packages form a list without repetition. */
  lemma PackagesDiffer(i: nat, j: nat)
    requires i < j < |PACKAGES|
    ensures PACKAGES[i] != PACKAGES[j]
  {
    assert forall k :: 0 <= k < |PACKAGES| ==> |PACKAGES[k]| == [21, 13, 10, 16, 12, 9, 19, 17, 15][k];
  }

  /** Exactly the first `n` packages are published, each uploaded once, in order. */
  ghost predicate PublishedPrefix(r: Registry, n: nat) {
    && n <= |PACKAGES|
    && r.uploads == PACKAGES[..n]
    && r.index.Keys == Elements(PACKAGES[..n])
    && forall name :: name in r.index ==> !r.index[name]
  }

  lemma {:induction false} MissingAfterPrefix(n: nat, k: nat, index: map<string, bool>)
    requires n <= |PACKAGES| && k <= |PACKAGES| && index.Keys == Elements(PACKAGES[..n])
    ensures Missing(PACKAGES[k..], index) == PACKAGES[if k < n then n else k..]
    decreases |PACKAGES| - k
  {
    hide PACKAGES;
    if k < |PACKAGES| {
      assert PACKAGES[k..][1..] == PACKAGES[k + 1..];
      MissingAfterPrefix(n, k + 1, index);
      if k >= n {
        forall j | 0 <= j < n
          ensures PACKAGES[j] != PACKAGES[k]
        {
          PackagesDiffer(j, k);
        }
        assert PACKAGES[k] !in PACKAGES[..n];
      } else {
        assert PACKAGES[k] == PACKAGES[..n][k];
      }
    }
  }

  lemma RunExtendsPrefix(before: Registry, after: Registry, ok: bool, n: nat) returns (n': nat)
    requires PublishedPrefix(before, n) && Publishes(before, after, ok)
    ensures n <= n' && PublishedPrefix(after, n') && (ok ==> n' == |PACKAGES|)
  {
    hide PACKAGES, Missing, HasYanked;
    MissingAfterPrefix(n, 0, before.index);
    assert PACKAGES[0..] == PACKAGES;
    var missing := Missing(PACKAGES, before.index);
    assert missing == PACKAGES[n..];
    var m: nat :| Uploaded(before, after, m) && (ok ==> m == |missing|);
    n' := n + m;
    assert PACKAGES[..n] + missing[..m] == PACKAGES[..n'];
  }

  /** A history of runs over one index: each interrupted anywhere or finished. */
  ghost predicate History(states: seq<Registry>, finished: seq<bool>) {
    && |states| == |finished| + 1
    && forall i :: 0 <= i < |finished| ==> Publishes(states[i], states[i + 1], finished[i])
  }

  /**
   * Starting from nothing, any sequence of interrupted and repeated runs keeps a prefix of the release
   * list published, with nothing uploaded twice; a finished run has published everything.
   */
  lemma {:induction false} ResumablePublication(states: seq<Registry>, finished: seq<bool>) returns (n: nat)
    requires History(states, finished) && states[0] == NOTHING
    ensures PublishedPrefix(Last(states), n)
    ensures true in finished ==> n == |PACKAGES|
    ensures forall i, j :: 0 <= i < j < |Last(states).uploads| ==> Last(states).uploads[i] != Last(states).uploads[j]
    decreases |states|
  {
    hide PACKAGES, Publishes;
    if finished == [] {
      n := 0;
    } else {
      var last := |finished| - 1;
      assert History(states[..last + 1], finished[..last]);
      var k := ResumablePublication(states[..last + 1], finished[..last]);
      n := RunExtendsPrefix(states[last], states[last + 1], finished[last], k);
      assert finished == finished[..last] + [finished[last]];
    }
    forall i, j | 0 <= i < j < n
      ensures PACKAGES[i] != PACKAGES[j]
    {
      PackagesDiffer(i, j);
    }
  }

  /** What is published is closed under the dependencies that the published crates have on the release. */
  lemma PublishedSetIsClosed(
    version: string, packages: map<string, Package>, tag: Option<string>, r: Registry, n: nat, name: string,
    d: Dependency)
    requires ValidRelease(version, packages, tag) && PublishedPrefix(r, n)
    requires name in r.index && name in packages && d in packages[name].dependencies && IsRelease(d)
    ensures d.name in r.index && d.name != name && Requires(d, version)
  {
    hide PACKAGES, WellDescribed, FromGit, Requires, IsRelease;
    var k :| 0 <= k < n && PACKAGES[k] == name;
    assert Releasable(packages[PACKAGES[k]], Elements(PACKAGES[..k]), version);
    assert Orderly(d, Elements(PACKAGES[..k]), version);
    var j :| 0 <= j < k && PACKAGES[j] == d.name;
    assert PACKAGES[j] == PACKAGES[..n][j];
    PackagesDiffer(j, k);
  }
}
