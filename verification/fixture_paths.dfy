/** Which fixture paths a scenario may use. */
module FixturePaths {
  import opened Common

  const MAX_FILES_PER_SCENARIO: nat := 8
  const MAX_FILE_BYTES: nat := 16 * 1024
  const MAX_TOTAL_FILE_BYTES: nat := 32 * 1024
  const MAX_PATH_BYTES: nat := 240
  const IMAGE_NAME: string := "input.png"

  type Path = seq<string>

  datatype Fixture = Fixture(path: string, content: string)

  datatype ContractError =
    | Backslash | Traversal | GitMetadata | ControlCharacter | Reserved | TooLong
    | FileCount | FileTooLarge | Duplicate | Conflict | TotalTooLarge

  /** Parts between separators; there is always at least one. */
  function Split(s: string): (parts: Path)
    ensures parts != []
  {
    if s == [] then [""]
    else
      var rest := Split(s[1..]);
      if s[0] == '/' then [""] + rest else [[s[0]] + rest[0]] + rest[1..]
  }

  function Join(parts: Path): string
    requires parts != []
  {
    if |parts| == 1 then parts[0] else parts[0] + "/" + Join(parts[1..])
  }

  lemma {:induction false} JoinSplit(s: string)
    ensures Join(Split(s)) == s
  {
    if s != [] {
      var rest := Split(s[1..]);
      JoinSplit(s[1..]);
      if s[0] == '/' {
        assert ([""] + rest)[1..] == rest;
      } else {
        assert ([[s[0]] + rest[0]] + rest[1..])[1..] == rest[1..];
        if |rest| > 1 {
          assert [s[0]] + rest[0] + "/" + Join(rest[1..]) == [s[0]] + (rest[0] + "/" + Join(rest[1..]));
        }
      }
      assert s == [s[0]] + s[1..];
    }
  }

  /** Different path strings are different paths. */
  lemma SplitInjective(p: string, q: string)
    requires Split(p) == Split(q)
    ensures p == q
  {
    JoinSplit(p);
    JoinSplit(q);
  }

  /** Length of the UTF-8 encoding. */
  function Utf8Length(s: string): nat {
    if s == [] then 0 else CharLength(s[0]) + Utf8Length(s[1..])
  }

  function CharLength(c: char): nat {
    var n := c as int;
    if n < 0x80 then 1 else if n < 0x800 then 2 else if n < 0x1_0000 then 3 else 4
  }

  predicate Printable(part: string) {
    forall c :: c in part ==> c as int >= 32
  }

  function SafeRelativePath(value: string): Result<string, ContractError> {
    var parts := Split(value);
    if '\\' in value then Err(Backslash)
    else if exists part :: part in parts && part in {"", ".", ".."} then Err(Traversal)
    else if ".git" in parts then Err(GitMetadata)
    else if exists part :: part in parts && !Printable(part) then Err(ControlCharacter)
    else if Last(parts) == IMAGE_NAME then Err(Reserved)
    else if Utf8Length(value) > MAX_PATH_BYTES then Err(TooLong)
    else Ok(value)
  }

  /** What an accepted path promises: it names a place strictly below the workspace. */
  predicate Safe(path: Path) {
    && path != []
    && Last(path) != IMAGE_NAME
    && forall part :: part in path ==> part !in {"", ".", "..", ".git"} && '/' !in part && Printable(part)
  }

  lemma {:induction false} SplitHasNoSeparators(s: string)
    ensures forall part :: part in Split(s) ==> '/' !in part
  {
    if s != [] {
      SplitHasNoSeparators(s[1..]);
      var rest := Split(s[1..]);
      assert '/' !in rest[0];
      forall part | part in Split(s)
        ensures '/' !in part
      {
        if s[0] != '/' && part == Split(s)[0] {
          assert part == [s[0]] + rest[0];
        } else if part != "" {
          assert part in rest;
        }
      }
    }
  }

  lemma AcceptedPathIsSafe(value: string)
    requires SafeRelativePath(value).Ok?
    ensures Safe(Split(value)) && SafeRelativePath(value).value == value
  {
    SplitHasNoSeparators(value);
  }

  /** Exactly which paths are accepted, and which rule refuses the others first. */
  lemma PathRules(value: string)
    ensures var r, parts := SafeRelativePath(value), Split(value);
            && (r == Err(Backslash) <==> '\\' in value)
            && (r.Ok? <==>
                  && '\\' !in value
                  && (forall part :: part in parts ==> part != "" && part != "." && part != ".." && part != ".git")
                  && (forall part, c :: part in parts && c in part ==> c as int >= 32)
                  && parts[|parts| - 1] != "input.png"
                  && Utf8Length(value) <= 240)
            && (r.Ok? ==> r.value == value)
            && (r == Err(TooLong) ==> Utf8Length(value) > 240)
            && (r == Err(Reserved) ==> parts[|parts| - 1] == "input.png")
            && (r == Err(GitMetadata) ==> ".git" in parts)
  {
    hide Split, Utf8Length;
  }

  /** The encoded length adds up over any split of a text, and is one to four bytes a character. */
  lemma {:induction false} Utf8Concat(a: string, b: string)
    ensures Utf8Length(a + b) == Utf8Length(a) + Utf8Length(b)
    ensures |a| <= Utf8Length(a) <= 4 * |a|
    ensures (forall c :: c in a ==> c as int < 128) <==> Utf8Length(a) == |a|
  {
    if a == [] {
      assert a + b == b;
    } else {
      assert (a + b)[1..] == a[1..] + b;
      assert a == [a[0]] + a[1..];
      assert a[0] in a && forall c :: c in a <==> c == a[0] || c in a[1..];
      Utf8Concat(a[1..], b);
    }
  }

  /** The four widths of the encoding. */
  lemma Utf8Widths(c: char)
    ensures Utf8Length([c]) ==
            if c <= '\U{7F}' then 1 else if c <= '\U{7FF}' then 2 else if c <= '\U{FFFF}' then 3 else 4
  {
    assert [c][1..] == [];
  }

  // ---- Whole scenarios ----

  predicate ProperPrefix(p: Path, q: Path) {
    |p| < |q| && q[..|p|] == p
  }

  function PathOf(f: Fixture): Path {
    Split(f.path)
  }

  function TotalBytes(fixtures: seq<Fixture>): nat {
    if fixtures == [] then 0 else TotalBytes(fixtures[..|fixtures| - 1]) + Utf8Length(Last(fixtures).content)
  }

  predicate FixtureAllowed(f: Fixture) {
    SafeRelativePath(f.path).Ok? && Utf8Length(f.content) <= MAX_FILE_BYTES
  }

  /** No path is repeated, and none is a directory of another. */
  ghost predicate ConflictFree(fixtures: seq<Fixture>) {
    forall i, j :: 0 <= i < |fixtures| && 0 <= j < |fixtures| && i != j ==>
      PathOf(fixtures[i]) != PathOf(fixtures[j]) && !ProperPrefix(PathOf(fixtures[i]), PathOf(fixtures[j]))
  }

  ghost predicate Accepted(fixtures: seq<Fixture>) {
    && 1 <= |fixtures| <= MAX_FILES_PER_SCENARIO
    && (forall f :: f in fixtures ==> FixtureAllowed(f))
    && ConflictFree(fixtures)
    && TotalBytes(fixtures) <= MAX_TOTAL_FILE_BYTES
  }

  function Contents(fixtures: seq<Fixture>): string {
    if fixtures == [] then "" else Contents(fixtures[..|fixtures| - 1]) + Last(fixtures).content
  }

  /** An accepted scenario has one to eight files of at most 16 KiB, whose contents together have at most 32 KiB. */
  lemma {:induction false} TotalIsOfContents(fixtures: seq<Fixture>)
    ensures TotalBytes(fixtures) == Utf8Length(Contents(fixtures))
    ensures Accepted(fixtures) ==>
              && 1 <= |fixtures| <= 8 && Utf8Length(Contents(fixtures)) <= 32_768
              && forall f :: f in fixtures ==> Utf8Length(f.content) <= 16_384
  {
    hide ConflictFree, SafeRelativePath;
    if fixtures != [] {
      var front := fixtures[..|fixtures| - 1];
      TotalIsOfContents(front);
      Utf8Concat(Contents(front), Last(fixtures).content);
    }
  }

  function Paths(fixtures: seq<Fixture>): seq<string> {
    if fixtures == [] then [] else Paths(fixtures[..|fixtures| - 1]) + [Last(fixtures).path]
  }

  lemma {:induction false} PathsAre(fixtures: seq<Fixture>)
    ensures |Paths(fixtures)| == |fixtures|
    ensures forall i :: 0 <= i < |fixtures| ==> Paths(fixtures)[i] == fixtures[i].path
  {
    if fixtures != [] {
      PathsAre(fixtures[..|fixtures| - 1]);
    }
  }

  ghost predicate AllDifferent(names: seq<string>) {
    forall i, j :: 0 <= i < j < |names| ==> names[i] != names[j]
  }

  /** Comparing the number of different names with the number of names finds every duplicate. */
  lemma {:induction false} CountingFindsDuplicates(names: seq<string>)
    ensures |Elements(names)| <= |names|
    ensures |Elements(names)| == |names| <==> AllDifferent(names)
  {
    hide AllDifferent, Elements;
    if names == [] {
      NoNames();
    } else {
      var front, name := names[..|names| - 1], Last(names);
      CountingFindsDuplicates(front);
      OneMoreName(front, name);
      assert names == front + [name];
    }
  }

  lemma NoNames()
    ensures Elements<string>([]) == {} && AllDifferent([])
  {
  }

  lemma OneMoreName(front: seq<string>, name: string)
    ensures |Elements(front + [name])| == |Elements(front)| + if name in front then 0 else 1
    ensures AllDifferent(front + [name]) <==> AllDifferent(front) && name !in front
  {
    var names := front + [name];
    assert Elements(names) == Elements(front) + {name};
    if name in front {
      var i :| 0 <= i < |front| && front[i] == name;
      assert Elements(names) == Elements(front);
      assert names[i] == names[|front|];
    }
    if AllDifferent(names) {
      assert forall i :: 0 <= i < |front| ==> names[i] == front[i];
    }
  }

  method CheckPrefixes(fixtures: seq<Fixture>) returns (ok: bool)
    ensures ok <==> forall i, j :: 0 <= i < |fixtures| && 0 <= j < |fixtures| && i != j ==>
                      !ProperPrefix(PathOf(fixtures[i]), PathOf(fixtures[j]))
  {
    hide ProperPrefix, PathOf;
    for i := 0 to |fixtures|
      invariant forall a, b :: 0 <= a < i && 0 <= b < |fixtures| && a != b ==>
                  !ProperPrefix(PathOf(fixtures[a]), PathOf(fixtures[b]))
    {
      for j := 0 to |fixtures|
        invariant forall b :: 0 <= b < j && b != i ==> !ProperPrefix(PathOf(fixtures[i]), PathOf(fixtures[b]))
      {
        if i != j && ProperPrefix(PathOf(fixtures[i]), PathOf(fixtures[j])) {
          return false;
        }
      }
    }
    ok := true;
  }

  method CheckEach(fixtures: seq<Fixture>) returns (r: Option<ContractError>)
    ensures r.None? <==> forall f :: f in fixtures ==> FixtureAllowed(f)
  {
    hide SafeRelativePath, Utf8Length;
    for i := 0 to |fixtures|
      invariant forall j :: 0 <= j < i ==> FixtureAllowed(fixtures[j])
    {
      assert fixtures[i] in fixtures;
      var path := SafeRelativePath(fixtures[i].path);
      if path.Err? {
        return Some(path.error);
      }
      if Utf8Length(fixtures[i].content) > MAX_FILE_BYTES {
        return Some(FileTooLarge);
      }
    }
    r := None;
  }

  /** The scenario constructor accepts exactly the conflict-free sets of safe, bounded fixtures. */
  method ValidateFixtures(fixtures: seq<Fixture>) returns (r: Option<ContractError>)
    ensures r.None? <==> Accepted(fixtures)
  {
    hide FixtureAllowed, TotalBytes, Elements, Paths, AllDifferent, ProperPrefix, Split;
    if |fixtures| < 1 || |fixtures| > MAX_FILES_PER_SCENARIO {
      return Some(FileCount);
    }
    var bad := CheckEach(fixtures);
    if bad.Some? {
      return bad;
    }
    CountingFindsDuplicates(Paths(fixtures));
    UniqueStringsAreUniquePaths(fixtures);
    if |Elements(Paths(fixtures))| != |Paths(fixtures)| {
      return Some(Duplicate);
    }
    var ok := CheckPrefixes(fixtures);
    if !ok {
      return Some(Conflict);
    }
    if TotalBytes(fixtures) > MAX_TOTAL_FILE_BYTES {
      return Some(TotalTooLarge);
    }
    r := None;
  }

  lemma UniqueStringsAreUniquePaths(fixtures: seq<Fixture>)
    ensures AllDifferent(Paths(fixtures)) <==>
            (forall i, j :: 0 <= i < |fixtures| && 0 <= j < |fixtures| && i != j ==>
              PathOf(fixtures[i]) != PathOf(fixtures[j]))
  {
    hide Split, Paths;
    PathsAre(fixtures);
    forall i, j | 0 <= i < |fixtures| && 0 <= j < |fixtures| && PathOf(fixtures[i]) == PathOf(fixtures[j])
      ensures Paths(fixtures)[i] == Paths(fixtures)[j]
    {
      SplitInjective(fixtures[i].path, fixtures[j].path);
    }
    if AllDifferent(Paths(fixtures)) {
      forall i, j | 0 <= i < |fixtures| && 0 <= j < |fixtures| && i != j
        ensures Paths(fixtures)[i] != Paths(fixtures)[j]
      {
        if i > j {
          assert Paths(fixtures)[j] != Paths(fixtures)[i];
        }
      }
    } else {
      var i, j :| 0 <= i < j < |Paths(fixtures)| && Paths(fixtures)[i] == Paths(fixtures)[j];
      assert PathOf(fixtures[i]) == PathOf(fixtures[j]);
    }
  }
}
