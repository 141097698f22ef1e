/** Writing accepted fixtures into a fresh workspace. */
module FixtureWriting {
  import opened Common
  import opened FixturePaths

  /** Directories and files below the workspace, which is the empty path. */
  datatype Tree = Tree(dirs: set<Path>, files: map<Path, string>)

  datatype WriteError = WorkspaceExists | NotADirectory | IsADirectory | MissingParent

  /** Directories that hold one of the first `n` fixtures. */
  ghost predicate IsParent(d: Path, fixtures: seq<Fixture>, n: nat)
    requires n <= |fixtures|
  {
    d == [] || exists i :: 0 <= i < n && ProperPrefix(d, PathOf(fixtures[i]))
  }

  /** Exactly the first `n` fixtures and their directories are there. */
  ghost predicate Holds(t: Tree, fixtures: seq<Fixture>, n: nat)
    requires n <= |fixtures|
  {
    && (forall d :: d in t.dirs <==> IsParent(d, fixtures, n))
    && (forall p :: p in t.files <==> exists i :: 0 <= i < n && p == PathOf(fixtures[i]))
    && (forall i :: 0 <= i < n ==> Get(t.files, PathOf(fixtures[i])) == Some(fixtures[i].content))
  }

  /** The directories of a path, the path itself excluded. */
  function Ancestors(p: Path): set<Path> {
    set k | 0 <= k < |p| :: p[..k]
  }

  class Workspace {
    var created: bool
    var dirs: set<Path>
    var files: map<Path, string>

    function View(): Tree
      reads this
    {
      Tree(dirs, files)
    }

    constructor (present: bool)
      ensures created == present && View() == Tree({}, map[])
    {
      created, dirs, files := present, {}, map[];
    }

    /** `mkdir(exist_ok=False)` of the workspace itself. */
    method Create() returns (r: Option<WriteError>)
      modifies this
      ensures created
      ensures if old(created) then r == Some(WorkspaceExists) && View() == old(View())
              else r == None && View() == Tree({[]}, map[])
    {
      if created {
        return Some(WorkspaceExists);
      }
      created, dirs, files := true, {[]}, map[];
      r := None;
    }

    /** `mkdir(parents=True, exist_ok=True)` of all directories of a path, outermost first. */
    method MakeParents(p: Path) returns (r: Option<WriteError>)
      modifies this`dirs
      ensures r.None? <==> forall d :: d in Ancestors(p) ==> d !in files
      ensures r.None? ==> dirs == old(dirs) + Ancestors(p)
    {
      for k := 0 to |p|
        invariant dirs == old(dirs) + set j | 0 <= j < k :: p[..j]
        invariant forall j :: 0 <= j < k ==> p[..j] !in files
      {
        if p[..k] in files {
          assert p[..k] in Ancestors(p);
          return Some(NotADirectory);
        }
        dirs := dirs + {p[..k]};
      }
      r := None;
    }

    /** Creates or overwrites a file. */
    method WriteBytes(p: Path, content: string) returns (r: Option<WriteError>)
      requires p != []
      modifies this`files
      ensures r.None? <==> p !in dirs && p[..|p| - 1] in dirs
      ensures files == if r.None? then old(files)[p := content] else old(files)
    {
      if p in dirs {
        return Some(IsADirectory);
      }
      if p[..|p| - 1] !in dirs {
        return Some(MissingParent);
      }
      files := files[p := content];
      r := None;
    }

    /**
     * For an accepted scenario every fixture is written: no directory is needed where a file is nor
     * the reverse, nothing is overwritten, and each path ends up with its own content.
     */
    method WriteFixtures(fixtures: seq<Fixture>) returns (r: Option<WriteError>, manifest: seq<(string, nat)>)
      requires Accepted(fixtures) && View() == Tree({[]}, map[])
      modifies this`dirs, this`files
      ensures r == None && Holds(View(), fixtures, |fixtures|)
      ensures |manifest| == |fixtures|
      ensures forall i :: 0 <= i < |fixtures| ==>
                manifest[i] == (fixtures[i].path, Utf8Length(fixtures[i].content))
    {
      hide SafeRelativePath, Split, Holds, IsParent, TotalBytes, Utf8Length;
      manifest := [];
      NothingWritten(fixtures);
      for n := 0 to |fixtures|
        invariant Holds(View(), fixtures, n) && |manifest| == n
        invariant forall i :: 0 <= i < n ==> manifest[i] == (fixtures[i].path, Utf8Length(fixtures[i].content))
      {
        var p := PathOf(fixtures[n]);
        NoConflict(View(), fixtures, n);
        ghost var before := View();
        r := MakeParents(p);
        if r.Some? {
          assert false;
        }
        r := WriteBytes(p, fixtures[n].content);
        if r.Some? {
          assert false;
        }
        WrittenOneMore(before, fixtures, n);
        manifest := manifest + [(fixtures[n].path, Utf8Length(fixtures[n].content))];
      }
      r := None;
    }

    /** The image is written last; that succeeds exactly if no fixture uses its name as a directory. */
    method Materialize(fixtures: seq<Fixture>, image: string) returns (r: Option<WriteError>)
      requires Accepted(fixtures)
      modifies this
      ensures old(created) ==> r == Some(WorkspaceExists) && View() == old(View())
      ensures !old(created) ==> (r.None? <==> !UsesImageName(fixtures))
      ensures !old(created) ==> Holds(View().(files := files - {[IMAGE_NAME]}), fixtures, |fixtures|)
      ensures !old(created) && r.None? ==> [IMAGE_NAME] in files && files[[IMAGE_NAME]] == image
    {
      hide Accepted, Holds, UsesImageName;
      r := Create();
      if r.Some? {
        return;
      }
      var manifest;
      r, manifest := WriteFixtures(fixtures);
      ImageIsFree(View(), fixtures);
      ghost var before := files;
      r := WriteBytes([IMAGE_NAME], image);
      assert [IMAGE_NAME][..0] == [];
      assert files - {[IMAGE_NAME]} == before;
    }
  }

  /** A fixture below a directory called like the image. */
  predicate UsesImageName(fixtures: seq<Fixture>) {
    exists i :: 0 <= i < |fixtures| && PathOf(fixtures[i])[0] == IMAGE_NAME
  }

  lemma NothingWritten(fixtures: seq<Fixture>)
    ensures Holds(Tree({[]}, map[]), fixtures, 0)
  {
  }

  /** What is already there does not stand in the way of the next fixture. */
  lemma NoConflict(t: Tree, fixtures: seq<Fixture>, n: nat)
    requires Accepted(fixtures) && n < |fixtures| && Holds(t, fixtures, n)
    ensures var p := PathOf(fixtures[n]);
            && p != [] && p !in t.dirs && p !in t.files && p !in Ancestors(p)
            && (forall d :: d in Ancestors(p) ==> d !in t.files)
            && p[..|p| - 1] in Ancestors(p)
  {
    hide SafeRelativePath, Split, TotalBytes, Utf8Length;
    var p := PathOf(fixtures[n]);
    forall d | d in Ancestors(p)
      ensures d !in t.files && d != p
    {
      assert ProperPrefix(d, p);
      assert forall i :: 0 <= i < n ==> PathOf(fixtures[i]) != d;
    }
    assert !IsParent(p, fixtures, n);
    assert p[..|p| - 1] in Ancestors(p);
  }

  lemma AncestorsAreParents(d: Path, p: Path)
    requires p != []
    ensures d in Ancestors(p) <==> ProperPrefix(d, p)
  {
    if ProperPrefix(d, p) {
      assert d == p[..|d|];
    }
  }

  lemma WrittenOneMore(t: Tree, fixtures: seq<Fixture>, n: nat)
    requires Accepted(fixtures) && n < |fixtures| && Holds(t, fixtures, n)
    ensures var p := PathOf(fixtures[n]);
            Holds(Tree(t.dirs + Ancestors(p), t.files[p := fixtures[n].content]), fixtures, n + 1)
  {
    hide SafeRelativePath, Split, TotalBytes, Utf8Length, Ancestors, ProperPrefix;
    var p := PathOf(fixtures[n]);
    NoConflict(t, fixtures, n);
    forall d
      ensures d in t.dirs + Ancestors(p) <==> IsParent(d, fixtures, n + 1)
    {
      AncestorsAreParents(d, p);
    }
    assert forall i :: 0 <= i < n ==> PathOf(fixtures[i]) in t.files;
  }

  /** The image's place is not a file, and it is a directory exactly if a fixture made it one. */
  lemma ImageIsFree(t: Tree, fixtures: seq<Fixture>)
    requires Accepted(fixtures) && Holds(t, fixtures, |fixtures|)
    ensures [IMAGE_NAME] !in t.files && [] in t.dirs
    ensures [IMAGE_NAME] in t.dirs <==> UsesImageName(fixtures)
  {
    hide SafeRelativePath, Split, TotalBytes, Utf8Length;
    forall i | 0 <= i < |fixtures|
      ensures PathOf(fixtures[i]) != [IMAGE_NAME]
      ensures ProperPrefix([IMAGE_NAME], PathOf(fixtures[i])) <==> PathOf(fixtures[i])[0] == IMAGE_NAME
    {
      assert fixtures[i] in fixtures;
      AcceptedPathIsSafe(fixtures[i].path);
      var p := PathOf(fixtures[i]);
      if p[0] == IMAGE_NAME {
        assert |p| > 1;
        assert p[..1] == [IMAGE_NAME];
      }
    }
    assert IsParent([], fixtures, |fixtures|);
  }

  /** The scenario contract accepts a fixture below `input.png`, after which the image cannot be written. */
  lemma ImageNameCanBeTaken()
    ensures var fixtures := [Fixture("input.png/x", "")]; Accepted(fixtures) && UsesImageName(fixtures)
  {
    hide Split, SafeRelativePath, Utf8Length;
    var s := "input.png/x";
    PathBelowImage();
    assert Utf8Length("") == 0 by { ShortText(""); }
    var fixtures := [Fixture(s, "")];
    assert fixtures[..0] == [];
    assert PathOf(fixtures[0])[0] == IMAGE_NAME;
  }

  lemma PathBelowImage()
    ensures Split("input.png/x") == [IMAGE_NAME, "x"] && SafeRelativePath("input.png/x").Ok?
  {
    hide Split, Utf8Length;
    var s := "input.png/x";
    assert s == IMAGE_NAME + "/" + "x";
    SplitAt(IMAGE_NAME, "x");
    SplitOfPlain("x");
    assert |"x"| == 1 && |IMAGE_NAME| == 9 && |".git"| == 4 && "x"[0] != '.';
    ShortText(s);
  }

  lemma {:induction false} SplitOfPlain(s: string)
    requires '/' !in s
    ensures Split(s) == [s]
  {
    if s != [] {
      assert s[0] in s && forall c :: c in s[1..] ==> c in s;
      SplitOfPlain(s[1..]);
      assert [s[0]] + s[1..] == s;
    }
  }

  lemma {:induction false} SplitAt(a: string, b: string)
    requires '/' !in a
    ensures Split(a + "/" + b) == [a] + Split(b)
  {
    var s := a + "/" + b;
    if a == [] {
      assert s[1..] == b;
    } else {
      assert a[0] in a && forall c :: c in a[1..] ==> c in a;
      SplitAt(a[1..], b);
      assert s[1..] == a[1..] + "/" + b;
      assert [s[0]] + a[1..] == a;
      assert ([a[1..]] + Split(b))[1..] == Split(b);
    }
  }

  lemma {:induction false} ShortText(s: string)
    ensures Utf8Length(s) <= 4 * |s|
  {
    if s != [] {
      ShortText(s[1..]);
    }
  }
}
