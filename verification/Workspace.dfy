/** Per-issue directories under one root: where they lie, and what creating and removing them touches. */
module Workspace {
  import opened Text
  import opened Types
  import opened Paths

  // ---------------------------------------------------------------- keys

  /** The characters a directory name keeps. */
  predicate Kept(c: char) {
    'a' <= c <= 'z' || 'A' <= c <= 'Z' || '0' <= c <= '9' || c == '.' || c == '_' || c == '-'
  }

  /** `sanitize_issue_identifier`. */
  function Sanitize(identifier: string): (key: string)
    ensures |key| == |identifier| && Free(key, SLASH)
  {
    seq(|identifier|, i requires 0 <= i < |identifier| => if Kept(identifier[i]) then identifier[i] else '_')
  }

  /** Two identifiers share a directory exactly when they differ only in characters that become underscores. */
  lemma KeysCollideIff(a: string, b: string)
    ensures Sanitize(a) == Sanitize(b) <==>
            && |a| == |b|
            && forall i :: 0 <= i < |a| ==> a[i] == b[i] || (Underscored(a[i]) && Underscored(b[i]))
  {
    if Sanitize(a) == Sanitize(b) {
      forall i | 0 <= i < |a| ensures a[i] == b[i] || (Underscored(a[i]) && Underscored(b[i])) {
        assert Sanitize(a)[i] == Sanitize(b)[i];
      }
    }
  }

  /** Letters, digits, '.', '_' and '-' stay as they are; everything else becomes '_'. */
  lemma KeyMeans(identifier: string, i: nat)
    requires i < |identifier|
    ensures var c := identifier[i];
      var stays := 'a' <= c <= 'z' || 'A' <= c <= 'Z' || '0' <= c <= '9' || c in ['.', '_', '-'];
      Sanitize(identifier)[i] == if stays then c else '_'
  {
  }

  predicate Underscored(c: char) {
    c == '_' || !Kept(c)
  }

  // ---------------------------------------------------------------- paths

  /** The directory of an issue: the root joined with its key, normalized. */
  function WorkspacePath(root: PathBuf, identifier: string): PathBuf {
    Resolve(Components(JoinPath(Show(root), Sanitize(identifier))))
  }

  /** The containment check: the root is a prefix, component by component. */
  predicate Accepted(root: PathBuf, identifier: string) {
    root <= WorkspacePath(root, identifier)
  }

  /** A proper key is one more component; "" and "." are the root itself, ".." is its parent. */
  lemma PathOfKey(root: PathBuf, identifier: string)
    requires Proper(root)
    ensures Meaning(None, JoinPath(Show(root), Sanitize(identifier))) == Some(WorkspacePath(root, identifier))
    ensures WorkspacePath(root, identifier) ==
            var key := Sanitize(identifier);
            if key == "" || key == "." then root else if key == ".." then Pop(root) else root + [Normal(key)]
    ensures Proper(WorkspacePath(root, identifier))
  {
    hide Components, Split, Inner, Show, Sanitize, JoinPath, Resolve, IsAbsolute, Proper;
    var key := Sanitize(identifier);
    KeyComponents(root, key);
    ShowIsAbsolute(root);
    ResolveFixed(root);
    var piece := PieceOf(key);
    if piece == [] {
      assert root + [] == root;
    } else {
      assert piece == [piece[0]];
      ResolveSnoc(root, piece[0]);
    }
    StepIsProper(root, key);
  }

  lemma KeyComponents(root: PathBuf, key: string)
    requires Proper(root) && Free(key, SLASH)
    ensures Components(JoinPath(Show(root), key)) == root + PieceOf(key)
    ensures IsAbsolute(JoinPath(Show(root), key))
  {
    hide Components, Split, Inner, Show, JoinPath, Proper;
    ShowIsAbsolute(root);
    ComponentsOfShow(root);
    assert key != "" ==> key[0] in key;
    JoinComponents(Show(root), key);
    SplitFree(key, SLASH);
    InnerOne(key);
  }

  lemma StepIsProper(root: PathBuf, key: string)
    requires Proper(root) && Free(key, SLASH)
    ensures Proper(Pop(root)) && (IsName(key) ==> Proper(root + [Normal(key)]))
    ensures key == "" || key == "." || key == ".." || IsName(key)
  {
  }

  /** The check refuses nothing but "..", and not even that when the root is "/". */
  lemma AcceptedIff(root: PathBuf, identifier: string)
    requires Proper(root)
    ensures Accepted(root, identifier) <==> Sanitize(identifier) != ".." || root == [RootDir]
  {
    hide WorkspacePath, Sanitize;
    PathOfKey(root, identifier);
  }

  /** Among accepted identifiers, one directory holds another exactly when its key is no name of its own or the
      keys agree. */
  lemma NestedIff(root: PathBuf, a: string, b: string)
    requires Proper(root) && Accepted(root, a) && Accepted(root, b)
    ensures WorkspacePath(root, a) <= WorkspacePath(root, b) <==> !IsName(Sanitize(a)) || Sanitize(a) == Sanitize(b)
  {
    hide WorkspacePath, Sanitize;
    PathOfKey(root, a);
    PathOfKey(root, b);
    AcceptedIff(root, a);
    var key := Sanitize(a);
    if IsName(key) {
      if WorkspacePath(root, a) <= WorkspacePath(root, b) {
        assert WorkspacePath(root, b)[|root|] == Normal(key);
      }
    } else {
      assert WorkspacePath(root, a) == root;
    }
  }

  // ---------------------------------------------------------------- the disk

  datatype Kind = Dir | File

  type Disk = map<PathBuf, Kind>

  datatype Failure = NoCurrentDir | Escape | NotADirectory | IoFailed | HookFailed

  datatype Result<+T> = Ok(value: T) | Err(error: Failure)

  function Prefixes(path: PathBuf): set<PathBuf> {
    set n | 1 <= n <= |path| :: path[..n]
  }

  /** A file in the place of a directory that is to be made. */
  predicate Blocked(disk: Disk, path: PathBuf) {
    exists q :: q in Prefixes(path) && q in disk && disk[q] == File
  }

  /** `create_dir_all`. */
  function WithDirs(disk: Disk, path: PathBuf): Disk {
    disk + map q | q in Prefixes(path) :: Dir
  }

  /** `remove_dir_all`: everything at or below `path`. */
  function Without(disk: Disk, path: PathBuf): Disk {
    disk - set q | q in disk && path <= q
  }

  /** `cleanup_ephemeral_artifacts`. */
  function Swept(disk: Disk, path: PathBuf): Disk {
    Without(Without(disk, path + [Normal("tmp")]), path + [Normal(".elixir_ls")])
  }

  datatype Ensured = Ensured(path: PathBuf, createdNow: bool)

  /** `hook` is the verdict of `after_create`, if there is one. */
  function EnsureOn(disk: Disk, root: PathBuf, identifier: string, hook: Option<bool>): (Result<Ensured>, Disk) {
    if Blocked(disk, root) then (Err(IoFailed), disk)
    else
      var rooted, path := WithDirs(disk, root), WorkspacePath(root, identifier);
      if !(root <= path) then (Err(Escape), rooted)
      else if path in rooted && rooted[path] == File then (Err(NotADirectory), rooted)
      else if path !in rooted && Blocked(rooted, path) then (Err(IoFailed), rooted)
      else
        var missing := path !in rooted;
        var made := Swept(if missing then WithDirs(rooted, path) else rooted, path);
        if missing && hook == Some(false) then (Err(HookFailed), Without(made, path))
        else (Ok(Ensured(path, missing)), made)
  }

  function CleanupOn(disk: Disk, root: PathBuf, identifier: string): (Result<()>, Disk) {
    var path := WorkspacePath(root, identifier);
    if !(root <= path) then (Err(Escape), disk)
    else if path !in disk then (Ok(()), disk)
    else if disk[path] == File then (Err(IoFailed), disk)
    else (Ok(()), Without(disk, path))
  }

  /** The two disks agree at and below `path`. */
  ghost predicate SameBelow(a: Disk, b: Disk, path: PathBuf) {
    forall q :: path <= q ==> (q in a <==> q in b) && (q in a ==> a[q] == b[q])
  }

  /** Making or sweeping one directory leaves a directory that neither holds the other alone. */
  lemma ElsewhereUntouched(disk: Disk, path: PathBuf, other: PathBuf)
    requires !(other <= path) && !(path <= other)
    ensures SameBelow(disk, WithDirs(disk, path), other) && SameBelow(disk, Without(disk, path), other)
    ensures SameBelow(disk, Swept(disk, path), other)
  {
    var tmp, elixir := [Normal("tmp")], [Normal(".elixir_ls")];
    forall q | other <= q ensures q !in Prefixes(path) && !(path <= q) && !(path + tmp <= q) && !(path + elixir <= q) {
      PrefixesChain(path, other, q);
      PrefixesChain(other, q, path);
      LongerPrefix(path, tmp, q);
      LongerPrefix(path, elixir, q);
    }
  }

  lemma PrefixesChain(a: PathBuf, b: PathBuf, c: PathBuf)
    ensures a <= c && b <= c ==> a <= b || b <= a
    ensures a <= b && b <= c ==> a <= c
  {
    if a <= c && b <= c {
      if |a| <= |b| { assert a == c[..|a|] == b[..|a|]; } else { assert b == c[..|b|] == a[..|b|]; }
    }
    if a <= b && b <= c { assert a == b[..|a|] == c[..|a|]; }
  }

  lemma LongerPrefix(a: PathBuf, c: PathBuf, q: PathBuf)
    ensures a + c <= q ==> a <= q
  {
    PrefixesChain(a, a + c, q);
  }

  lemma RootElsewhere(disk: Disk, root: PathBuf, other: PathBuf)
    requires root < other
    ensures SameBelow(disk, WithDirs(disk, root), other)
  {
  }

  lemma SameBelowChains(a: Disk, b: Disk, c: Disk, path: PathBuf)
    requires SameBelow(a, b, path) && SameBelow(b, c, path)
    ensures SameBelow(a, c, path)
  {
  }

  /** Setting up one workspace leaves every other one as it was. */
  lemma EnsureSparesOthers(disk: Disk, root: PathBuf, a: string, b: string, hook: Option<bool>)
    requires Proper(root) && IsName(Sanitize(a)) && IsName(Sanitize(b)) && Sanitize(a) != Sanitize(b)
    ensures SameBelow(disk, EnsureOn(disk, root, a, hook).1, WorkspacePath(root, b))
  {
    hide WorkspacePath, Sanitize, SameBelow, WithDirs, Swept, Without, Blocked, IsName;
    var path, other := WorkspacePath(root, a), WorkspacePath(root, b);
    Apart(root, a, b);
    RootElsewhere(disk, root, other);
    SameBelowItself(disk, other);
    var rooted := WithDirs(disk, root);
    var made := if path !in rooted then WithDirs(rooted, path) else rooted;
    SameBelowItself(rooted, other);
    ElsewhereUntouched(rooted, path, other);
    ElsewhereUntouched(made, path, other);
    ElsewhereUntouched(Swept(made, path), path, other);
    SameBelowChains(disk, rooted, made, other);
    SameBelowChains(disk, made, Swept(made, path), other);
    SameBelowChains(disk, Swept(made, path), Without(Swept(made, path), path), other);
  }

  lemma SameBelowItself(disk: Disk, path: PathBuf)
    ensures SameBelow(disk, disk, path)
  {
  }

  lemma Apart(root: PathBuf, a: string, b: string)
    requires Proper(root) && IsName(Sanitize(a)) && IsName(Sanitize(b)) && Sanitize(a) != Sanitize(b)
    ensures var path, other := WorkspacePath(root, a), WorkspacePath(root, b);
      !(path <= other) && !(other <= path) && root < other && root < path
  {
    hide WorkspacePath, Sanitize;
    PathOfKey(root, a);
    PathOfKey(root, b);
    AcceptedIff(root, a);
    AcceptedIff(root, b);
    NestedIff(root, a, b);
    NestedIff(root, b, a);
  }

  /** A cleanup that finds a directory removes it, and with it the other workspace exactly when its own key is no
      name of its own or the keys agree. */
  lemma CleanupTakesIff(disk: Disk, root: PathBuf, a: string, b: string)
    requires Proper(root) && Accepted(root, a) && Accepted(root, b)
    requires WorkspacePath(root, a) in disk && disk[WorkspacePath(root, a)] == Dir
    requires WorkspacePath(root, b) in disk
    ensures WorkspacePath(root, b) !in CleanupOn(disk, root, a).1 <==>
            !IsName(Sanitize(a)) || Sanitize(a) == Sanitize(b)
    ensures IsName(Sanitize(a)) && IsName(Sanitize(b)) && Sanitize(a) != Sanitize(b) ==>
              SameBelow(disk, CleanupOn(disk, root, a).1, WorkspacePath(root, b))
  {
    hide WorkspacePath, Sanitize, IsName;
    NestedIff(root, a, b);
    if IsName(Sanitize(a)) && IsName(Sanitize(b)) && Sanitize(a) != Sanitize(b) {
      Apart(root, a, b);
      ElsewhereUntouched(disk, WorkspacePath(root, a), WorkspacePath(root, b));
    }
  }

  lemma CleanupSparesOthers(disk: Disk, root: PathBuf, a: string, b: string)
    requires Proper(root) && IsName(Sanitize(a)) && IsName(Sanitize(b)) && Sanitize(a) != Sanitize(b)
    ensures SameBelow(disk, CleanupOn(disk, root, a).1, WorkspacePath(root, b))
  {
    hide WorkspacePath, Sanitize, IsName;
    Apart(root, a, b);
    ElsewhereUntouched(disk, WorkspacePath(root, a), WorkspacePath(root, b));
  }

  /** Every entry lies in a directory. */
  ghost predicate Tree(disk: Disk) {
    forall q :: q in disk && |q| > 1 ==> q[..|q| - 1] in disk && disk[q[..|q| - 1]] == Dir
  }

  lemma WithDirsTree(disk: Disk, path: PathBuf)
    requires Tree(disk) && !Blocked(disk, path)
    ensures Tree(WithDirs(disk, path)) && (path != [] ==>
            path in WithDirs(disk, path) && WithDirs(disk, path)[path] == Dir)
    ensures !Blocked(WithDirs(disk, path), path)
  {
    var made := WithDirs(disk, path);
    assert path != [] ==> path[..|path|] == path;
    forall q | q in made && |q| > 1 ensures q[..|q| - 1] in made && made[q[..|q| - 1]] == Dir {
      if q in Prefixes(path) {
        assert q[..|q| - 1] == path[..|q| - 1];
      }
    }
  }

  lemma WithoutTree(disk: Disk, path: PathBuf)
    requires Tree(disk)
    ensures Tree(Without(disk, path))
  {
    forall q | q in Without(disk, path) && |q| > 1 ensures !(path <= q[..|q| - 1]) {
      PrefixesChain(path, q[..|q| - 1], q);
    }
  }

  /** Below a missing entry there is nothing. */
  lemma {:induction false} MissingIsEmpty(disk: Disk, path: PathBuf, q: PathBuf)
    requires Tree(disk) && path != [] && path !in disk && path <= q
    ensures q !in disk
    decreases |q|
  {
    if |q| > |path| {
      assert path <= q[..|q| - 1];
      MissingIsEmpty(disk, path, q[..|q| - 1]);
    } else {
      assert q == path;
    }
  }

  /** What a worker gets: its directory is there; if it was made now it is empty. Both operations keep the tree. */
  lemma EnsureDelivers(disk: Disk, root: PathBuf, identifier: string, hook: Option<bool>)
    requires Proper(root) && Tree(disk)
    ensures var (r, after) := EnsureOn(disk, root, identifier, hook);
      && Tree(after)
      && (r.Ok? ==>
            && root <= r.value.path == WorkspacePath(root, identifier)
            && r.value.path in after && after[r.value.path] == Dir
            && (r.value.createdNow ==> hook != Some(false) && forall q :: r.value.path < q ==> q !in after))
  {
    hide WorkspacePath, WithDirs, Without, Blocked, Tree;
    var path := WorkspacePath(root, identifier);
    if !Blocked(disk, root) {
      WithDirsTree(disk, root);
      var rooted := WithDirs(disk, root);
      if root <= path && (path in rooted ==> rooted[path] == Dir) && (path !in rooted ==> !Blocked(rooted, path)) {
        var made := if path !in rooted then WithDirs(rooted, path) else rooted;
        if path !in rooted {
          WithDirsTree(rooted, path);
          NewIsEmpty(rooted, path);
        }
        SweptTree(made, path);
        WithoutTree(Swept(made, path), path);
      }
    }
  }

  lemma NewIsEmpty(disk: Disk, path: PathBuf)
    requires Tree(disk) && path != [] && path !in disk
    ensures forall q :: path < q ==> q !in WithDirs(disk, path)
  {
    forall q | path < q ensures q !in WithDirs(disk, path) { MissingIsEmpty(disk, path, q); }
  }

  lemma SweptTree(disk: Disk, path: PathBuf)
    requires Tree(disk) && path in disk
    ensures Tree(Swept(disk, path)) && path in Swept(disk, path) && Swept(disk, path)[path] == disk[path]
    ensures forall q :: q in Swept(disk, path) ==> q in disk
  {
    WithoutTree(disk, path + [Normal("tmp")]);
    WithoutTree(Without(disk, path + [Normal("tmp")]), path + [Normal(".elixir_ls")]);
  }

  lemma {:induction false} AncestorsAreDirs(disk: Disk, path: PathBuf, n: nat)
    requires Tree(disk) && path in disk && disk[path] == Dir && 1 <= n <= |path|
    ensures path[..n] in disk && disk[path[..n]] == Dir
    decreases |path|
  {
    if n < |path| {
      var up := path[..|path| - 1];
      AncestorsAreDirs(disk, up, n);
      assert up[..n] == path[..n];
    } else {
      assert path[..n] == path;
    }
  }

  /** A workspace that is there is used again: nothing on the disk changes but that its "tmp" and ".elixir_ls" go,
      with all they hold; no hook is asked. */
  lemma EnsureAgain(disk: Disk, root: PathBuf, identifier: string, hook: Option<bool>)
    requires Proper(root) && Tree(disk) && Accepted(root, identifier)
    requires WorkspacePath(root, identifier) in disk && disk[WorkspacePath(root, identifier)] == Dir
    ensures var path := WorkspacePath(root, identifier); var (r, after) := EnsureOn(disk, root, identifier, hook);
      && r == Ok(Ensured(path, false))
      && forall q :: (q in after <==>
                        q in disk && !(path + [Normal("tmp")] <= q) && !(path + [Normal(".elixir_ls")] <= q))
                     && (q in after ==> after[q] == disk[q])
  {
    hide WorkspacePath, Tree, Proper;
    var path := WorkspacePath(root, identifier);
    assert root != [] by { ProperIsSome(root); }
    forall n | 1 <= n <= |root| ensures root[..n] in disk && disk[root[..n]] == Dir {
      AncestorsAreDirs(disk, path, n);
      assert root[..n] == path[..n];
    }
    assert !Blocked(disk, root);
    assert WithDirs(disk, root) == disk;
  }

  lemma ProperIsSome(root: PathBuf)
    requires Proper(root)
    ensures root != []
  {
  }

  /** The first set-up: what is missing of the way to the directory is made, the hook is asked, and if it fails the
      directory goes again. Nothing else changes. */
  lemma EnsureFirst(disk: Disk, root: PathBuf, identifier: string, hook: Option<bool>)
    requires Proper(root) && Tree(disk) && Accepted(root, identifier) && !InTheWay(disk, root)
    requires WorkspacePath(root, identifier) !in disk && IsName(Sanitize(identifier))
    ensures var path := WorkspacePath(root, identifier); var (r, after) := EnsureOn(disk, root, identifier, hook);
      && r == (if hook == Some(false) then Err(HookFailed) else Ok(Ensured(path, true)))
      && forall q :: (q in after <==> q in disk || (q != [] && q <= path && (r.Ok? || q != path)))
                     && (q in after ==> after[q] == if q in disk then disk[q] else Dir)
  {
    hide WorkspacePath, Sanitize, IsName, EnsureOn, Tree, Proper, Without, WithDirs;
    var path := WorkspacePath(root, identifier);
    WayMeans(disk, root);
    ProperIsSome(root);
    OneBelow(root, identifier);
    EnsureFresh(disk, root, identifier, hook);
    FreshDisk(disk, root, path, hook);
    FirstIsFresh(disk, root, identifier, hook);
  }

  /** What the set-up of a missing directory leaves. */
  function FirstDisk(disk: Disk, root: PathBuf, path: PathBuf, hook: Option<bool>): Disk {
    var made := Swept(WithDirs(WithDirs(disk, root), path), path);
    if hook == Some(false) then Without(made, path) else made
  }

  lemma FirstIsFresh(disk: Disk, root: PathBuf, identifier: string, hook: Option<bool>)
    requires !Blocked(disk, root) && root < WorkspacePath(root, identifier) && WorkspacePath(root, identifier) !in disk
    requires Prefixes(WorkspacePath(root, identifier)) == Prefixes(root) + {WorkspacePath(root, identifier)}
    ensures EnsureOn(disk, root, identifier, hook).1 == FirstDisk(disk, root, WorkspacePath(root, identifier), hook)
  {
    hide WorkspacePath, Swept, Without;
    var path, rooted := WorkspacePath(root, identifier), WithDirs(disk, root);
    assert path !in Prefixes(root);
    assert !Blocked(rooted, path);
  }

  lemma MadeMeans(disk: Disk, root: PathBuf, path: PathBuf)
    requires Prefixes(path) == Prefixes(root) + {path} && path !in disk && !Blocked(disk, root)
    ensures var made := WithDirs(WithDirs(disk, root), path);
      forall q :: (q in made <==> q in disk || q in Prefixes(path))
                  && (q in made ==> made[q] == if q in disk then disk[q] else Dir)
  {
    hide Prefixes;
  }

  lemma NothingToSweep(disk: Disk, path: PathBuf)
    requires forall q :: path < q ==> q !in disk
    ensures Swept(disk, path) == disk
  {
    var tmp, elixir := path + [Normal("tmp")], path + [Normal(".elixir_ls")];
    assert path < tmp && path < elixir;
    forall q | q in disk ensures !(tmp <= q) && !(elixir <= q) {
      PrefixesChain(path, tmp, q);
      PrefixesChain(path, elixir, q);
      assert !(path < q);
    }
    assert Without(disk, tmp) == disk && Without(disk, elixir) == disk;
  }

  lemma FreshDisk(disk: Disk, root: PathBuf, path: PathBuf, hook: Option<bool>)
    requires Tree(disk) && root != [] && root < path && path !in disk && !Blocked(disk, root)
    requires Prefixes(path) == Prefixes(root) + {path}
    ensures var after := FirstDisk(disk, root, path, hook);
      forall q :: (q in after <==> q in disk || (q != [] && q <= path && (hook != Some(false) || q != path)))
                  && (q in after ==> after[q] == if q in disk then disk[q] else Dir)
  {
    hide Tree, WithDirs, Swept, Prefixes;
    var made := WithDirs(WithDirs(disk, root), path);
    MadeMeans(disk, root, path);
    forall q | path <= q ensures q !in disk { MissingIsEmpty(disk, path, q); }
    forall q ensures q in Prefixes(path) <==> q != [] && q <= path { PrefixMeans(path, q); }
    NothingToSweep(made, path);
  }

  lemma PrefixMeans(path: PathBuf, q: PathBuf)
    ensures q in Prefixes(path) <==> q != [] && q <= path
  {
    if q != [] && q <= path { assert q == path[..|q|]; }
  }

  /** A file stands where the root or a directory above it is to be. */
  ghost predicate InTheWay(disk: Disk, root: PathBuf) {
    exists n :: 1 <= n <= |root| && root[..n] in disk && disk[root[..n]] == File
  }

  lemma WayMeans(disk: Disk, root: PathBuf)
    ensures Blocked(disk, root) <==> InTheWay(disk, root)
  {
    if InTheWay(disk, root) {
      var n :| 1 <= n <= |root| && root[..n] in disk && disk[root[..n]] == File;
      assert root[..n] in Prefixes(root);
    }
  }

  /** When a set-up fails, and with what. */
  lemma EnsureFails(disk: Disk, root: PathBuf, identifier: string, hook: Option<bool>)
    requires Proper(root) && Tree(disk)
    ensures var key, path := Sanitize(identifier), WorkspacePath(root, identifier);
      var (r, after) := EnsureOn(disk, root, identifier, hook);
      && (r == Err(IoFailed) <==> InTheWay(disk, root))
      && (r == Err(Escape) <==> !InTheWay(disk, root) && key == ".." && root != [RootDir])
      && (r == Err(NotADirectory) <==>
            !InTheWay(disk, root) && Accepted(root, identifier) && path in disk && disk[path] == File)
      && (r == Err(HookFailed) <==>
            !InTheWay(disk, root) && IsName(key) && path !in disk && hook == Some(false))
      && r != Err(NoCurrentDir)
      && (InTheWay(disk, root) ==> after == disk)
  {
    hide WorkspacePath, Sanitize, Swept, Tree, Proper, InTheWay, Prefixes, IsName, Without;
    var path, rooted := WorkspacePath(root, identifier), WithDirs(disk, root);
    WayMeans(disk, root);
    AcceptedIff(root, identifier);
    ProperIsSome(root);
    RootIsMade(disk, root);
    PathOfKey(root, identifier);
    NameOrNot(root, identifier);
    if IsName(Sanitize(identifier)) && !Blocked(disk, root) {
      OneBelow(root, identifier);
      BelowRoot(disk, root, path);
    }
  }

  lemma RootIsMade(disk: Disk, root: PathBuf)
    requires root != []
    ensures root in WithDirs(disk, root) && WithDirs(disk, root)[root] == Dir
  {
    assert root[..|root|] == root;
  }

  lemma NameOrNot(root: PathBuf, identifier: string)
    requires Proper(root)
    ensures var key := Sanitize(identifier);
      || IsName(key)
      || (Accepted(root, identifier) && WorkspacePath(root, identifier) == root)
      || (key == ".." && root != [RootDir])
    ensures IsName(Sanitize(identifier)) ==> Sanitize(identifier) != ".."
  {
    hide WorkspacePath, Sanitize;
    PathOfKey(root, identifier);
  }

  /** Right below a root that was made, an entry is what it was, and nothing bars the way to it. */
  lemma BelowRoot(disk: Disk, root: PathBuf, path: PathBuf)
    requires root < path && Prefixes(path) == Prefixes(root) + {path} && !Blocked(disk, root)
    ensures var rooted := WithDirs(disk, root);
      && (path in rooted <==> path in disk) && (path in disk ==> rooted[path] == disk[path])
      && (path !in rooted ==> !Blocked(rooted, path))
  {
    assert path !in Prefixes(root);
  }

  /** When a cleanup fails, and what one that does not leaves: nothing at or below the directory, and all the rest. */
  lemma CleanupMeans(disk: Disk, root: PathBuf, identifier: string)
    requires Proper(root) && Tree(disk)
    ensures var key, path := Sanitize(identifier), WorkspacePath(root, identifier);
      var (r, after) := CleanupOn(disk, root, identifier);
      && (r == Err(Escape) <==> key == ".." && root != [RootDir])
      && (r == Err(IoFailed) <==> Accepted(root, identifier) && path in disk && disk[path] == File)
      && (r.Err? ==> after == disk)
      && (r.Ok? ==> forall q :: (q in after <==> q in disk && !(path <= q)) && (q in after ==> after[q] == disk[q]))
  {
    hide WorkspacePath, Sanitize, Proper;
    AcceptedIff(root, identifier);
    var path := WorkspacePath(root, identifier);
    if path !in disk && path != [] {
      forall q | path <= q ensures q !in disk { MissingIsEmpty(disk, path, q); }
    }
    PathOfKey(root, identifier);
    ProperIsSome(path);
  }

  /** A workspace set up after its own cleanup is new and empty, unless a file is in the way. */
  lemma CleanupThenEnsure(disk: Disk, root: PathBuf, identifier: string, hook: Option<bool>)
    requires Proper(root) && Tree(disk) && IsName(Sanitize(identifier))
    requires CleanupOn(disk, root, identifier).0.Ok? && !Blocked(disk, root)
    ensures var cleaned := CleanupOn(disk, root, identifier).1;
      var (r, after) := EnsureOn(cleaned, root, identifier, hook);
      var path := WorkspacePath(root, identifier);
      if hook == Some(false) then r == Err(HookFailed) && forall q :: path <= q ==> q !in after
      else r == Ok(Ensured(path, true)) && forall q :: path < q ==> q !in after
  {
    hide WorkspacePath, Sanitize, Tree, Blocked, WithDirs, IsName, EnsureOn;
    var path, cleaned := WorkspacePath(root, identifier), CleanupOn(disk, root, identifier).1;
    OneBelow(root, identifier);
    CleanedIsFree(disk, root, path);
    assert cleaned == if path in disk then Without(disk, path) else disk;
    EnsureFresh(cleaned, root, identifier, hook);
    EnsureDelivers(cleaned, root, identifier, hook);
  }

  lemma OneBelow(root: PathBuf, identifier: string)
    requires Proper(root) && IsName(Sanitize(identifier))
    ensures root < WorkspacePath(root, identifier)
    ensures Prefixes(WorkspacePath(root, identifier)) == Prefixes(root) + {WorkspacePath(root, identifier)}
  {
    hide WorkspacePath, Sanitize;
    PathOfKey(root, identifier);
    var path := WorkspacePath(root, identifier);
    forall n | 1 <= n <= |path| ensures path[..n] in Prefixes(root) + {path} {
      if n <= |root| { assert path[..n] == root[..n]; } else { assert path[..n] == path; }
    }
    forall n | 1 <= n <= |root| ensures root[..n] in Prefixes(path) {
      assert path[..n] == root[..n];
    }
    assert path[..|path|] == path;
  }

  lemma CleanedIsFree(disk: Disk, root: PathBuf, path: PathBuf)
    requires Tree(disk) && root < path && !Blocked(disk, root)
    ensures var cleaned := if path in disk then Without(disk, path) else disk;
      Tree(cleaned) && path !in cleaned && !Blocked(cleaned, root)
  {
    WithoutTree(disk, path);
  }

  lemma EnsureFresh(disk: Disk, root: PathBuf, identifier: string, hook: Option<bool>)
    requires Tree(disk) && !Blocked(disk, root) && root != []
    requires root < WorkspacePath(root, identifier) && WorkspacePath(root, identifier) !in disk
    requires Prefixes(WorkspacePath(root, identifier)) == Prefixes(root) + {WorkspacePath(root, identifier)}
    ensures var (r, after) := EnsureOn(disk, root, identifier, hook);
      && r == (if hook == Some(false) then Err(HookFailed) else Ok(Ensured(WorkspacePath(root, identifier), true)))
      && (r.Err? ==> forall q :: WorkspacePath(root, identifier) <= q ==> q !in after)
  {
    hide WorkspacePath, Tree, Swept;
    var path, rooted := WorkspacePath(root, identifier), WithDirs(disk, root);
    assert path !in Prefixes(root);
    assert !Blocked(rooted, path);
  }

  // ---------------------------------------------------------------- the operations

  class WorkspaceManager {
    var disk: Disk

    constructor (disk: Disk)
      ensures this.disk == disk
    {
      this.disk := disk;
    }

    /** `validate_workspace_containment`. */
    method ValidateContainment(cwd: Option<string>, root: string, path: string) returns (r: Result<()>)
      requires CwdOk(cwd)
      ensures r.Ok? <==>
              && Meaning(cwd, root).Some? && Meaning(cwd, path).Some?
              && Meaning(cwd, root).value <= Meaning(cwd, path).value
      ensures Meaning(cwd, root).Some? && Meaning(cwd, path).Some? && r.Err? ==> r.error == Escape
    {
      hide Meaning, Proper, Components, Show;
      var absoluteRoot := NormalizeToAbsolute(cwd, root);
      if absoluteRoot.None? { return Err(NoCurrentDir); }
      var absolutePath := NormalizeToAbsolute(cwd, path);
      if absolutePath.None? { return Err(NoCurrentDir); }
      MeaningIsStable(cwd, root);
      MeaningIsStable(cwd, path);
      ComponentsOfShow(Meaning(cwd, root).value);
      ComponentsOfShow(Meaning(cwd, path).value);
      if Components(absoluteRoot.value) <= Components(absolutePath.value) {
        return Ok(());
      } else {
        return Err(Escape);
      }
    }

    /** The path both operations work on. */
    method Locate(cwd: Option<string>, root: string, identifier: string) returns (r: Result<PathBuf>)
      requires CwdOk(cwd) && Meaning(cwd, root).Some? && root == Show(Meaning(cwd, root).value)
      ensures var base := Meaning(cwd, root).value;
        r == if Accepted(base, identifier) then Ok(WorkspacePath(base, identifier)) else Err(Escape)
    {
      hide Meaning, Proper, Components, Show, WorkspacePath, Sanitize;
      ghost var base := Meaning(cwd, root).value;
      var joined := JoinPath(root, Sanitize(identifier));
      MeaningIsStable(cwd, root);
      KeyPathMeans(cwd, base, identifier);
      var path := NormalizeToAbsolute(cwd, joined);
      MeaningIsStable(cwd, joined);
      ComponentsOfShow(WorkspacePath(base, identifier));
      var contained := ValidateContainment(cwd, root, path.value);
      if contained.Err? { return Err(contained.error); }
      return Ok(Components(path.value));
    }

    /** `ensure_workspace`. */
    method EnsureWorkspace(cwd: Option<string>, root: string, identifier: string, hook: Option<bool>)
      returns (r: Result<Ensured>)
      requires CwdOk(cwd)
      modifies this
      ensures var base := Meaning(cwd, root);
        if base.None? then r == Err(NoCurrentDir) && disk == old(disk)
        else (r, disk) == EnsureOn(old(disk), base.value, identifier, hook)
    {
      hide Meaning, Proper, Components, Show, WorkspacePath, Sanitize, Blocked, WithDirs, Without, Swept, Prefixes;
      var normalized := NormalizeToAbsolute(cwd, root);
      if normalized.None? { return Err(NoCurrentDir); }
      MeaningIsStable(cwd, root);
      ComponentsOfShow(Meaning(cwd, root).value);
      var base := Components(normalized.value);
      if Blocked(disk, base) { return Err(IoFailed); }
      disk := WithDirs(disk, base);
      var located := Locate(cwd, normalized.value, identifier);
      if located.Err? { return Err(located.error); }
      var path := located.value;
      var createdNow := path !in disk;
      if !createdNow && disk[path] == File { return Err(NotADirectory); }
      if createdNow {
        if Blocked(disk, path) { return Err(IoFailed); }
        disk := WithDirs(disk, path);
      }
      disk := Swept(disk, path);
      if createdNow && hook == Some(false) {
        disk := Without(disk, path);
        return Err(HookFailed);
      }
      return Ok(Ensured(path, createdNow));
    }

    /** `cleanup_workspace`. */
    method CleanupWorkspace(cwd: Option<string>, root: string, identifier: string) returns (r: Result<()>)
      requires CwdOk(cwd)
      modifies this
      ensures var base := Meaning(cwd, root);
        if base.None? then r == Err(NoCurrentDir) && disk == old(disk)
        else (r, disk) == CleanupOn(old(disk), base.value, identifier)
    {
      hide Meaning, Proper, Components, Show, WorkspacePath, Sanitize, Without;
      var normalized := NormalizeToAbsolute(cwd, root);
      if normalized.None? { return Err(NoCurrentDir); }
      MeaningIsStable(cwd, root);
      var located := Locate(cwd, normalized.value, identifier);
      if located.Err? { return Err(located.error); }
      var path := located.value;
      if path !in disk { return Ok(()); }
      if disk[path] == File { return Err(IoFailed); }
      disk := Without(disk, path);
      return Ok(());
    }
  }

  lemma KeyPathMeans(cwd: Option<string>, root: PathBuf, identifier: string)
    requires Proper(root)
    ensures Meaning(cwd, JoinPath(Show(root), Sanitize(identifier))) == Some(WorkspacePath(root, identifier))
    ensures Proper(WorkspacePath(root, identifier))
  {
    hide Components, Resolve, Show, Sanitize;
    PathOfKey(root, identifier);
    ShowIsAbsolute(root);
    var key := Sanitize(identifier);
    assert key != "" ==> key[0] in key;
    JoinComponents(Show(root), key);
  }
}
