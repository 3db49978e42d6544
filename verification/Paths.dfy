/** Unix paths as the standard library reads them, and `normalize_to_absolute`. */
module Paths {
  import opened Text
  import opened Types

  datatype Component = RootDir | CurDir | ParentDir | Normal(name: string)

  type PathBuf = seq<Component>

  const SLASH: char := '/'

  predicate IsAbsolute(path: string) {
    path != "" && path[0] == SLASH
  }

  function PieceOf(piece: string): seq<Component> {
    if piece == "" || piece == "." then []
    else if piece == ".." then [ParentDir]
    else [Normal(piece)]
  }

  function Inner(pieces: seq<string>): seq<Component> {
    if pieces == [] then [] else PieceOf(pieces[0]) + Inner(pieces[1..])
  }

  function Leading(path: string): seq<Component> {
    if IsAbsolute(path) then [RootDir] else if Split(path, SLASH)[0] == "." then [CurDir] else []
  }

  /** `Path::components`: repeated slashes and inner dots vanish; a leading dot stays. */
  function Components(path: string): PathBuf {
    Leading(path) + Inner(Split(path, SLASH))
  }

  /** `Path::join` and `PathBuf::push`. */
  function JoinPath(base: string, path: string): string {
    if IsAbsolute(path) then path
    else if base != "" && base[|base| - 1] != SLASH then base + [SLASH] + path
    else base + path
  }

  function LastSlash(s: string): (i: int)
    ensures -1 <= i < |s|
  {
    if s == "" then -1 else if s[|s| - 1] == SLASH then |s| - 1 else LastSlash(s[..|s| - 1])
  }

  /** `PathBuf::pop` on an absolute path without needless slashes: the root stays. */
  function PopText(path: string): string {
    var i := LastSlash(path);
    if i <= 0 then path[..i + 1] else path[..i]
  }

  function OsStr(c: Component): string {
    match c
    case RootDir => "/"
    case CurDir => "."
    case ParentDir => ".."
    case Normal(name) => name
  }

  /** A name that is a path component of its own. */
  predicate IsName(name: string) {
    name != "" && name != "." && name != ".." && Free(name, SLASH)
  }

  /** An absolute path without "." or "..". */
  ghost predicate Proper(p: PathBuf) {
    && p != [] && p[0] == RootDir
    && forall i :: 1 <= i < |p| ==> p[i].Normal? && IsName(p[i].name)
  }

  // ---------------------------------------------------------------- joining

  lemma {:induction false} InnerConcat(a: seq<string>, b: seq<string>)
    ensures Inner(a + b) == Inner(a) + Inner(b)
  {
    hide PieceOf;
    if a == [] {
      assert a + b == b;
    } else {
      assert (a + b)[1..] == a[1..] + b;
      InnerConcat(a[1..], b);
    }
  }

  lemma InnerOne(piece: string)
    ensures Inner([piece]) == PieceOf(piece)
  {
    assert [piece][1..] == [];
  }

  /** What stands before a slash decides how a path begins, unless it is empty. */
  lemma LeadingOfPrefix(stem: string, rest: string)
    ensures Leading(stem + [SLASH] + rest) == if stem == "" then [RootDir] else Leading(stem)
    ensures Inner(Split(stem + [SLASH] + rest, SLASH)) == Inner(Split(stem, SLASH)) + Inner(Split(rest, SLASH))
  {
    hide Split, Inner;
    SplitConcat(stem, rest, SLASH);
    InnerConcat(Split(stem, SLASH), Split(rest, SLASH));
  }

  lemma Regroup<T>(a: seq<T>, b: seq<T>, c: seq<T>)
    ensures a + (b + c) == (a + b) + c
  {
  }

  lemma JoinAtSlash(stem: string, path: string)
    ensures Components(stem + [SLASH] + path) == Components(stem + [SLASH]) + Inner(Split(path, SLASH))
  {
    hide Split, Inner, Leading;
    LeadingOfPrefix(stem, path);
    LeadingOfPrefix(stem, "");
    SplitFree("", SLASH);
    InnerOne("");
    assert stem + [SLASH] + "" == stem + [SLASH];
    var names := Inner(Split(stem, SLASH));
    assert names + [] == names;
    Regroup(Leading(stem + [SLASH]), names, Inner(Split(path, SLASH)));
  }

  lemma JoinAtName(base: string, path: string)
    requires base != ""
    ensures Components(base + [SLASH] + path) == Components(base) + Inner(Split(path, SLASH))
  {
    hide Split, Inner, Leading;
    LeadingOfPrefix(base, path);
    Regroup(Leading(base), Inner(Split(base, SLASH)), Inner(Split(path, SLASH)));
  }

  /** Joining a relative path appends its components. */
  lemma JoinComponents(base: string, path: string)
    requires base != "" && !IsAbsolute(path)
    ensures Components(JoinPath(base, path)) == Components(base) + Inner(Split(path, SLASH))
    ensures IsAbsolute(JoinPath(base, path)) == IsAbsolute(base)
  {
    hide Components, Split, Inner;
    if base[|base| - 1] == SLASH {
      assert base == base[..|base| - 1] + [SLASH];
      JoinAtSlash(base[..|base| - 1], path);
    } else {
      JoinAtName(base, path);
    }
  }

  /** The text of a path, pushed together component by component. */
  function Show(p: PathBuf): string {
    if |p| <= 1 then "/" else JoinPath(Show(p[..|p| - 1]), OsStr(p[|p| - 1]))
  }

  lemma {:induction false} ShowIsAbsolute(p: PathBuf)
    requires Proper(p)
    ensures IsAbsolute(Show(p))
    ensures |p| > 1 ==> !IsAbsolute(OsStr(p[|p| - 1])) && Split(OsStr(p[|p| - 1]), SLASH) == [p[|p| - 1].name]
  {
    hide Split;
    if |p| > 1 {
      ShowIsAbsolute(p[..|p| - 1]);
      SplitFree(p[|p| - 1].name, SLASH);
    }
  }

  /** Reading back the text of a proper path gives the path. */
  lemma {:induction false} ComponentsOfShow(p: PathBuf)
    requires Proper(p)
    ensures Components(Show(p)) == p
  {
    hide Components, Split;
    if |p| > 1 {
      var init, last := p[..|p| - 1], p[|p| - 1];
      ComponentsOfShow(init);
      ShowIsAbsolute(p);
      ShowIsAbsolute(init);
      JoinComponents(Show(init), last.name);
      InnerOne(last.name);
      assert p == init + [last];
    } else {
      assert p == [RootDir];
      RootComponents();
    }
  }

  lemma RootComponents()
    ensures Components("/") == [RootDir]
  {
    SplitConcat("", "", SLASH);
    assert "" + [SLASH] + "" == "/";
    assert Split("/", SLASH) == [""] + [""];
    InnerConcat([""], [""]);
    InnerOne("");
  }

  // ---------------------------------------------------------------- resolving

  function Pop(p: PathBuf): PathBuf {
    if p != [] && p[|p| - 1] != RootDir then p[..|p| - 1] else p
  }

  function Step(p: PathBuf, c: Component): PathBuf {
    match c
    case CurDir => p
    case ParentDir => Pop(p)
    case RootDir => [RootDir]
    case Normal(_) => p + [c]
  }

  /** The loop of `normalize_to_absolute` on components. */
  function Resolve(cs: PathBuf): PathBuf {
    if cs == [] then [] else Step(Resolve(cs[..|cs| - 1]), cs[|cs| - 1])
  }

  /** What `Components` gives for an absolute path. */
  ghost predicate Rooted(cs: PathBuf) {
    && cs != [] && cs[0] == RootDir
    && forall i :: 1 <= i < |cs| ==> cs[i].ParentDir? || (cs[i].Normal? && IsName(cs[i].name))
  }

  lemma {:induction false} InnerShape(pieces: seq<string>)
    requires forall i :: 0 <= i < |pieces| ==> Free(pieces[i], SLASH)
    ensures forall i :: 0 <= i < |Inner(pieces)| ==>
              Inner(pieces)[i].ParentDir? || (Inner(pieces)[i].Normal? && IsName(Inner(pieces)[i].name))
  {
    if pieces != [] { InnerShape(pieces[1..]); }
  }

  lemma ComponentsAreRooted(path: string)
    requires IsAbsolute(path)
    ensures Rooted(Components(path))
  {
    hide Split, Inner, IsName;
    PiecesFree(path, SLASH);
    InnerShape(Split(path, SLASH));
  }

  /** No "." or ".." survives. */
  lemma {:induction false} ResolveIsProper(cs: PathBuf)
    requires Rooted(cs)
    ensures Proper(Resolve(cs))
  {
    hide IsName;
    if |cs| > 1 {
      ResolveIsProper(cs[..|cs| - 1]);
    } else {
      assert cs == [RootDir];
      assert cs[..0] == [];
    }
  }

  /** A proper path is its own normal form. */
  lemma {:induction false} ResolveFixed(p: PathBuf)
    requires Proper(p)
    ensures Resolve(p) == p
  {
    hide IsName;
    if |p| > 1 {
      ResolveFixed(p[..|p| - 1]);
      assert p == p[..|p| - 1] + [p[|p| - 1]];
    } else {
      assert p == [RootDir];
      assert p[..0] == [];
    }
  }

  /** Normalizing a prefix first makes no difference. */
  lemma {:induction false} ResolveDistributes(a: PathBuf, b: PathBuf)
    requires Rooted(a)
    ensures Resolve(a + b) == Resolve(Resolve(a) + b)
  {
    hide Rooted, Proper, Step;
    if b == [] {
      ResolveIsProper(a);
      ResolveFixed(Resolve(a));
      assert a + b == a && Resolve(a) + b == Resolve(a);
    } else {
      var init := b[..|b| - 1];
      ResolveDistributes(a, init);
      assert (a + b)[..|a + b| - 1] == a + init;
      assert (Resolve(a) + b)[..|Resolve(a) + b| - 1] == Resolve(a) + init;
    }
  }

  /** One rewriting of a path: a name and the ".." after it go, or a ".." at the root does. */
  ghost predicate Cancels(x: PathBuf, y: PathBuf, i: int) {
    && 1 <= i < |x| && x[i] == ParentDir
    && (if x[i - 1] == RootDir then y == x[..i] + x[i + 1..] else x[i - 1].Normal? && y == x[..i - 1] + x[i + 1..])
  }

  lemma ResolveSnoc(a: PathBuf, c: Component)
    ensures Resolve(a + [c]) == Step(Resolve(a), c)
  {
    assert (a + [c])[..|a|] == a;
  }

  lemma CancelKeeps(x: PathBuf, y: PathBuf, i: int)
    requires Cancels(x, y, i)
    ensures Resolve(x) == Resolve(y)
  {
    hide Step;
    var gone := if x[i - 1] == RootDir then i else i - 1;
    var a, b := x[..gone], x[i + 1..];
    assert Resolve(x[..i + 1]) == Resolve(a) by { CancelPrefix(x, i); }
    SameTail(x[..i + 1], a, b);
    assert x == x[..i + 1] + b;
  }

  lemma CancelPrefix(x: PathBuf, i: int)
    requires 1 <= i < |x| && x[i] == ParentDir && (x[i - 1] == RootDir || x[i - 1].Normal?)
    ensures Resolve(x[..i + 1]) == Resolve(x[..if x[i - 1] == RootDir then i else i - 1])
  {
    assert x[..i + 1] == x[..i] + [ParentDir] && x[..i] == x[..i - 1] + [x[i - 1]];
    ResolveSnoc(x[..i], ParentDir);
    ResolveSnoc(x[..i - 1], x[i - 1]);
  }

  lemma {:induction false} SameTail(a: PathBuf, b: PathBuf, tail: PathBuf)
    requires Resolve(a) == Resolve(b)
    ensures Resolve(a + tail) == Resolve(b + tail)
  {
    hide Step, Resolve;
    if tail == [] {
      assert a + tail == a && b + tail == b;
    } else {
      var init, last := tail[..|tail| - 1], tail[|tail| - 1];
      SameTail(a, b, init);
      assert a + tail == (a + init) + [last] && b + tail == (b + init) + [last];
      ResolveSnoc(a + init, last);
      ResolveSnoc(b + init, last);
    }
  }

  ghost predicate Cancelled(x: PathBuf, y: PathBuf) {
    exists i :: Cancels(x, y, i)
  }

  /** Successive paths, each obtained from the one before by one cancellation. */
  ghost predicate Rewriting(trace: seq<PathBuf>) {
    forall j, k :: 0 <= j && k == j + 1 < |trace| ==> Cancelled(trace[j], trace[k])
  }

  /** In whatever order ".." components are cancelled, a proper end result is the one the loop computes. */
  lemma {:induction false} EveryRewritingAgrees(trace: seq<PathBuf>)
    requires trace != [] && Rewriting(trace) && Proper(trace[|trace| - 1])
    ensures trace[|trace| - 1] == Resolve(trace[0])
  {
    hide Cancels, Proper, Resolve;
    if |trace| == 1 {
      ResolveFixed(trace[0]);
    } else {
      assert Cancelled(trace[0], trace[1]);
      var i :| Cancels(trace[0], trace[1], i);
      CancelKeeps(trace[0], trace[1], i);
      EveryRewritingAgrees(trace[1..]);
    }
  }

  /** And some rewriting gets there. */
  lemma {:induction false} SomeRewritingArrives(cs: PathBuf) returns (trace: seq<PathBuf>)
    requires Rooted(cs)
    ensures trace != [] && Rewriting(trace) && trace[0] == cs && trace[|trace| - 1] == Resolve(cs)
  {
    hide IsName;
    if |cs| == 1 {
      assert cs == [RootDir] && cs[..0] == [];
      trace := [cs];
    } else {
      var init, last := cs[..|cs| - 1], cs[|cs| - 1];
      var before := SomeRewritingArrives(init);
      trace := seq(|before|, k requires 0 <= k < |before| => before[k] + [last]);
      forall j, k | 0 <= j && k == j + 1 < |trace| ensures Cancelled(trace[j], trace[k]) {
        CancelledSnoc(before[j], before[k], last);
      }
      assert init + [last] == cs;
      if last == ParentDir {
        ResolveIsProper(init);
        PopCancels(Resolve(init));
        trace := trace + [Pop(Resolve(init))];
      }
    }
  }

  lemma CancelledSnoc(x: PathBuf, y: PathBuf, c: Component)
    requires Cancelled(x, y)
    ensures Cancelled(x + [c], y + [c])
  {
    var i :| Cancels(x, y, i);
    assert Cancels(x + [c], y + [c], i) by {
      assert (x + [c])[..i] == x[..i] && (x + [c])[..i - 1] == x[..i - 1] && (x + [c])[i + 1..] == x[i + 1..] + [c];
    }
  }

  lemma PopCancels(p: PathBuf)
    requires Proper(p)
    ensures Cancelled(p + [ParentDir], Pop(p))
  {
    hide IsName;
    assert (p + [ParentDir])[|p| + 1..] == [];
    assert Cancels(p + [ParentDir], Pop(p), |p|);
  }

  // ---------------------------------------------------------------- the loop on text

  lemma {:induction false} LastSlashOf(base: string, name: string)
    requires Free(name, SLASH)
    ensures LastSlash(base + [SLASH] + name) == |base|
  {
    var s := base + [SLASH] + name;
    if name != "" {
      var init := name[..|name| - 1];
      assert forall c :: c in init ==> c in name;
      assert s[..|s| - 1] == base + [SLASH] + init;
      assert s[|s| - 1] == name[|name| - 1] && name[|name| - 1] in name;
      LastSlashOf(base, init);
    }
  }

  lemma PopTextAt(base: string, name: string)
    requires Free(name, SLASH)
    ensures PopText(base + [SLASH] + name) == if base == "" then "/" else base
  {
    hide LastSlash;
    LastSlashOf(base, name);
    var text := base + [SLASH] + name;
    assert text[..|base|] == base;
    assert base == "" ==> text[..1] == "/";
  }

  lemma PopTextPops(p: PathBuf)
    requires Proper(p)
    ensures PopText(Show(p)) == Show(Pop(p))
  {
    hide PopText;
    if |p| > 1 {
      var init, name := p[..|p| - 1], p[|p| - 1].name;
      ShowIsAbsolute(p);
      ShowEnd(init);
      if |init| == 1 {
        assert Show(p) == "" + [SLASH] + name;
        PopTextAt("", name);
      } else {
        PopTextAt(Show(init), name);
      }
    } else {
      assert "" + [SLASH] + "" == "/";
      PopTextAt("", "");
    }
  }

  /** Only the root itself ends in a slash. */
  lemma ShowEnd(p: PathBuf)
    requires Proper(p)
    ensures Show(p) != "" && (Show(p)[|Show(p)| - 1] == SLASH <==> |p| == 1)
  {
    if |p| > 1 {
      var name := p[|p| - 1].name;
      assert name[|name| - 1] in name;
      assert Show(p)[|Show(p)| - 1] == name[|name| - 1];
    }
  }

  /** The path whose components the loop walks: relative ones start at the current directory. */
  function Anchored(cwd: Option<string>, path: string): Option<string> {
    if IsAbsolute(path) then Some(path)
    else if cwd.Some? then Some(JoinPath(cwd.value, path))
    else None
  }

  /** What `normalize_to_absolute` is for: the proper path that `path` means. */
  function Meaning(cwd: Option<string>, path: string): Option<PathBuf> {
    match Anchored(cwd, path)
    case None => None
    case Some(p) => Some(Resolve(Components(p)))
  }

  /** A relative path starts at the current directory; an absolute one has no use for it. */
  lemma RelativeStartsAtCwd(cwd: Option<string>, path: string)
    ensures IsAbsolute(path) ==> Meaning(cwd, path) == Some(Resolve(Components(path)))
    ensures !IsAbsolute(path) && cwd.None? ==> Meaning(cwd, path).None?
    ensures !IsAbsolute(path) && cwd.Some? && IsAbsolute(cwd.value) ==>
              Meaning(cwd, path) == Some(Resolve(Components(cwd.value) + Inner(Split(path, SLASH))))
  {
    hide Resolve, Components, Inner, Split;
    if !IsAbsolute(path) && cwd.Some? && IsAbsolute(cwd.value) { JoinComponents(cwd.value, path); }
  }

  /** A working directory, where there is one, is absolute. */
  predicate CwdOk(cwd: Option<string>) {
    cwd.Some? ==> IsAbsolute(cwd.value)
  }

  lemma AnchoredIsAbsolute(cwd: Option<string>, path: string)
    requires CwdOk(cwd)
    ensures Anchored(cwd, path).Some? ==> IsAbsolute(Anchored(cwd, path).value)
  {
  }

  /** A meaning is proper, and the text of a meaning means itself. */
  lemma MeaningIsStable(cwd: Option<string>, path: string)
    requires CwdOk(cwd)
    ensures Meaning(cwd, path).Some? ==>
              && Proper(Meaning(cwd, path).value)
              && Meaning(cwd, Show(Meaning(cwd, path).value)) == Meaning(cwd, path)
  {
    hide Components, Resolve, Proper, Show;
    AnchoredIsAbsolute(cwd, path);
    if Anchored(cwd, path).Some? {
      var text := Anchored(cwd, path).value;
      ComponentsAreRooted(text);
      ResolveIsProper(Components(text));
      ShowMeans(cwd, Resolve(Components(text)));
    }
  }

  lemma ShowMeans(cwd: Option<string>, p: PathBuf)
    requires Proper(p)
    ensures Meaning(cwd, Show(p)) == Some(p)
  {
    hide Components, Resolve, Proper, Show;
    ShowIsAbsolute(p);
    ComponentsOfShow(p);
    ResolveFixed(p);
  }

  /** `normalize_to_absolute`; `None` stands for an unreadable current directory. */
  method NormalizeToAbsolute(cwd: Option<string>, path: string) returns (normalized: Option<string>)
    requires CwdOk(cwd)
    ensures normalized.Some? <==> Meaning(cwd, path).Some?
    ensures normalized.Some? ==> normalized.value == Show(Meaning(cwd, path).value)
  {
    hide Components, IsName, Show, Rooted, Proper;
    var joined := path;
    if !IsAbsolute(path) {
      if cwd.None? { return None; }
      joined := JoinPath(cwd.value, path);
    }
    AnchoredIsAbsolute(cwd, path);
    ComponentsAreRooted(joined);
    var cs := Components(joined);
    var text := "";
    var i := 0;
    while i < |cs|
      invariant 0 <= i <= |cs|
      invariant if i == 0 then text == "" else text == Show(Resolve(cs[..i]))
    {
      StepText(cs, i, text);
      match cs[i] {
        case CurDir =>
        case ParentDir => text := PopText(text);
        case other => text := JoinPath(text, OsStr(other));
      }
      i := i + 1;
    }
    assert cs[..|cs|] == cs;
    RootedIsSome(cs);
    return Some(text);
  }

  lemma RootedIsSome(cs: PathBuf)
    requires Rooted(cs)
    ensures cs != []
  {
  }

  lemma StepText(cs: PathBuf, i: int, text: string)
    requires Rooted(cs) && 0 <= i < |cs|
    requires if i == 0 then text == "" else text == Show(Resolve(cs[..i]))
    ensures Show(Resolve(cs[..i + 1])) ==
            match cs[i]
            case CurDir => text
            case ParentDir => PopText(text)
            case other => JoinPath(text, OsStr(other))
  {
    assert cs[..i + 1] == cs[..i] + [cs[i]];
    ResolveSnoc(cs[..i], cs[i]);
    if i > 0 {
      ResolveIsProper(cs[..i]);
      PopTextPops(Resolve(cs[..i]));
      ShowSnoc(Resolve(cs[..i]), cs[i]);
    } else {
      assert Resolve([]) == [];
    }
  }

  lemma ShowSnoc(p: PathBuf, c: Component)
    requires p != []
    ensures Show(p + [c]) == JoinPath(Show(p), OsStr(c))
  {
    assert (p + [c])[..|p|] == p;
  }
}
