/** Splitting a workflow file into front matter and prompt body. */
module FrontMatter {
  import opened Text

  const OPENING := "---\n"
  const CLOSING := "\n---\n"

  predicate StartsWithCrLf(s: string) {
    |s| >= 2 && s[0] == CR && s[1] == LF
  }

  /** `content.replace("\r\n", "\n")`. */
  function Unify(s: string): (t: string)
    ensures |t| <= |s|
  {
    if s == "" then ""
    else if StartsWithCrLf(s) then [LF] + Unify(s[2..])
    else [s[0]] + Unify(s[1..])
  }

  predicate OccursAt(s: string, d: string, i: int) {
    0 <= i <= |s| - |d| && s[i..i + |d|] == d
  }

  /** The leftmost occurrence of `d` in `s`, or -1. */
  function Find(s: string, d: string): (i: int)
    ensures i == -1 || OccursAt(s, d, i)
    ensures forall j :: OccursAt(s, d, j) ==> 0 <= i <= j
  {
    if |s| < |d| then -1
    else if s[..|d|] == d then 0
    else
      OccursInTail(s, d);
      var k := Find(s[1..], d);
      if k == -1 then -1 else k + 1
  }

  lemma OccursInTail(s: string, d: string)
    requires s != ""
    ensures forall j :: j > 0 ==> (OccursAt(s, d, j) <==> OccursAt(s[1..], d, j - 1))
  {
    forall j | j > 0 ensures OccursAt(s, d, j) <==> OccursAt(s[1..], d, j - 1) {
      if j <= |s| - |d| { assert s[j..j + |d|] == s[1..][j - 1..j - 1 + |d|]; }
    }
  }

  predicate Occurs(s: string, d: string) {
    Find(s, d) >= 0
  }

  datatype Parsed = NoFrontMatter(body: string) | FrontMatter(yaml: string, body: string) | MissingClose

  /** What `parse_workflow_definition` does once the line ends are unified. */
  function ParseText(s: string): Parsed {
    if OPENING <= s then
      var rest := s[|OPENING|..];
      var i := Find(rest, CLOSING);
      if i == -1 then MissingClose else FrontMatter(rest[..i], Trim(rest[i + |CLOSING|..]))
    else NoFrontMatter(Trim(s))
  }

  /** `parse_workflow_definition`, up to the reading of the YAML part. */
  function Parse(content: string): Parsed {
    ParseText(Unify(content))
  }

  function Compose(yaml: string, body: string): string {
    OPENING + yaml + CLOSING + body
  }

  // ---------------------------------------------------------------- line ends

  predicate NoCrLf(s: string) {
    forall i :: 0 <= i < |s| - 1 ==> !(s[i] == CR && s[i + 1] == LF)
  }

  lemma {:induction false} UnifyKeepsIff(s: string)
    ensures NoCrLf(s) <==> Unify(s) == s
    ensures NoCrLf(s) <==> |Unify(s)| == |s|
  {
    if s != "" {
      if |s| >= 2 && s[0] == CR && s[1] == LF {
        assert !NoCrLf(s);
      } else {
        UnifyKeepsIff(s[1..]);
        assert s == [s[0]] + s[1..];
        assert NoCrLf(s) ==> NoCrLf(s[1..]);
        if NoCrLf(s[1..]) {
          forall i | 0 <= i < |s| - 1 ensures !(s[i] == CR && s[i + 1] == LF) {
            if i > 0 { assert s[i] == s[1..][i - 1] && s[i + 1] == s[1..][i]; }
          }
        }
      }
    }
  }

  /** A cut that does not part a CR from its LF. */
  predicate CleanCut(a: string, b: string) {
    a == "" || b == "" || a[|a| - 1] != CR || b[0] != LF
  }

  lemma UnifyStep(s: string)
    ensures s == "" ==> Unify(s) == ""
    ensures StartsWithCrLf(s) ==> Unify(s) == [LF] + Unify(s[2..])
    ensures s != "" && !StartsWithCrLf(s) ==> Unify(s) == [s[0]] + Unify(s[1..])
  {
  }

  lemma {:induction false} UnifyConcat(a: string, b: string)
    requires CleanCut(a, b)
    ensures Unify(a + b) == Unify(a) + Unify(b)
    decreases |a|
  {
    hide Unify;
    var s := a + b;
    UnifyStep(a);
    UnifyStep(s);
    if a == "" {
      assert s == b;
    } else if StartsWithCrLf(a) {
      assert s[2..] == a[2..] + b;
      UnifyConcat(a[2..], b);
    } else {
      assert s[1..] == a[1..] + b;
      UnifyConcat(a[1..], b);
    }
  }

  lemma UnifyHead(s: string)
    ensures s != "" ==> Unify(s) != "" && (Unify(s)[0] == s[0] || (s[0] == CR && Unify(s)[0] == LF))
  {
  }

  lemma {:induction false} TrimStartUnify(s: string)
    ensures TrimStart(Unify(s)) == Unify(TrimStart(s))
    decreases |s|
  {
    if s != "" && IsSpace(s[0]) {
      var step := if |s| >= 2 && s[0] == CR && s[1] == LF then 2 else 1;
      TrimStartUnify(s[step..]);
      assert Unify(s)[1..] == Unify(s[step..]);
      if step == 2 { assert s[1..][1..] == s[2..]; }
    } else {
      UnifyHead(s);
    }
  }

  lemma {:induction false} UnifyLast(s: string)
    requires s != ""
    ensures var n := |s|; var u := Unify(s);
      if n >= 2 && s[n - 2] == CR && s[n - 1] == LF then u == Unify(s[..n - 2]) + [LF]
      else u == Unify(s[..n - 1]) + [s[n - 1]]
  {
    var n := |s|;
    if n >= 2 && s[n - 2] == CR && s[n - 1] == LF {
      assert s == s[..n - 2] + [CR, LF];
      UnifyConcat(s[..n - 2], [CR, LF]);
      assert [CR, LF][2..] == "";
    } else {
      assert s == s[..n - 1] + [s[n - 1]];
      UnifyConcat(s[..n - 1], [s[n - 1]]);
      assert [s[n - 1]][1..] == "";
    }
  }

  lemma TrimEndStep(s: string, c: char)
    ensures TrimEnd(s + [c]) == if IsSpace(c) then TrimEnd(s) else s + [c]
  {
    assert (s + [c])[..|s|] == s;
  }

  lemma {:induction false} TrimEndUnify(s: string)
    ensures TrimEnd(Unify(s)) == Unify(TrimEnd(s))
    decreases |s|
  {
    hide Unify, TrimEnd, IsSpace;
    var n := |s|;
    if s == "" {
      NothingToTrim();
    } else {
      UnifyLast(s);
      var init, last := s[..n - 1], s[n - 1];
      assert s == init + [last];
      TrimEndStep(init, last);
      if n >= 2 && s[n - 2] == CR && last == LF {
        var stem := s[..n - 2];
        assert init == stem + [CR];
        TrimEndStep(stem, CR);
        TrimEndStep(Unify(stem), LF);
        LineEndsAreSpace();
        TrimEndUnify(stem);
      } else {
        TrimEndStep(Unify(init), last);
        TrimEndUnify(init);
      }
    }
  }

  lemma NothingToTrim()
    ensures Unify("") == "" && TrimEnd("") == ""
  {
  }

  lemma LineEndsAreSpace()
    ensures IsSpace(CR) && IsSpace(LF)
  {
  }

  /** Unifying line ends and trimming commute. */
  lemma TrimUnify(s: string)
    ensures Trim(Unify(s)) == Unify(Trim(s))
  {
    TrimStartUnify(s);
    TrimEndUnify(TrimStart(s));
  }

  // ---------------------------------------------------------------- the delimiter

  /** Where the first closing delimiter of `yaml + CLOSING + rest` lies: at `|yaml|`, or earlier within `yaml +
      "\n"`. */
  lemma FirstClosing(yaml: string, rest: string)
    ensures var i := Find(yaml + CLOSING + rest, CLOSING);
      && 0 <= i <= |yaml|
      && (i == |yaml| <==> !Occurs(yaml + [LF], CLOSING))
  {
    var s, head := yaml + CLOSING + rest, yaml + [LF];
    assert s[|yaml|..|yaml| + |CLOSING|] == CLOSING;
    assert OccursAt(s, CLOSING, |yaml|);
    var i := Find(s, CLOSING);
    if OccursAt(head, CLOSING, Find(head, CLOSING)) {
      var j := Find(head, CLOSING);
      assert s[j..j + |CLOSING|] == head[j..j + |CLOSING|];
      assert OccursAt(s, CLOSING, j);
    }
    if i < |yaml| {
      ClosingOverlap(yaml, rest, i);
    }
  }

  /** An occurrence that starts inside the front matter does not reach past the first line feed after it. */
  lemma ClosingOverlap(yaml: string, rest: string, i: int)
    requires 0 <= i < |yaml| && OccursAt(yaml + CLOSING + rest, CLOSING, i)
    ensures OccursAt(yaml + [LF], CLOSING, i)
  {
    var s, head, n := yaml + CLOSING + rest, yaml + [LF], |yaml|;
    assert forall k :: 0 <= k < 5 ==> s[i + k] == s[i..i + 5][k] == CLOSING[k];
    assert forall k :: 0 <= k < 5 ==> s[n + k] == CLOSING[k];
    assert n - i < 5 ==> s[n] == s[i + (n - i)] == CLOSING[n - i];
    assert i + 5 <= n + 1;
    assert head[i..i + 5] == s[i..i + 5];
  }

  /** Every CR LF becomes one LF, wherever it stands; where there is none, nothing changes. */
  lemma UnifyMeans(a: string, b: string)
    ensures Unify(a + [CR, LF] + b) == Unify(a) + [LF] + Unify(b)
    ensures NoCrLf(a) ==> Unify(a) == a
  {
    assert a + [CR, LF] + b == a + ([CR, LF] + b);
    UnifyConcat(a, [CR, LF] + b);
    UnifyStep([CR, LF] + b);
    assert ([CR, LF] + b)[2..] == b;
    UnifyKeepsIff(a);
  }

  /** The text, its line ends unified, is an opening line, `yaml`, the first closing line after that, and `rest`. */
  ghost predicate Divides(text: string, yaml: string, rest: string) {
    && text == "---\n" + yaml + "\n---\n" + rest
    && forall i :: 0 <= i < |yaml| ==> !OccursAt(yaml + "\n---\n" + rest, "\n---\n", i)
  }

  lemma FirstIsFound(all: string, i: int)
    requires OccursAt(all, CLOSING, i) && forall j :: 0 <= j < i ==> !OccursAt(all, CLOSING, j)
    ensures Find(all, CLOSING) == i
  {
  }

  lemma DividesFinds(text: string, yaml: string, rest: string)
    requires Divides(text, yaml, rest)
    ensures OPENING <= text && ParseText(text) == FrontMatter(yaml, Trim(rest))
  {
    hide Trim, Find, OccursAt, ParseText;
    var all := yaml + CLOSING + rest;
    assert text == OPENING + all;
    ParseOpened(all);
    ClosingStands(yaml, rest);
    FirstIsFound(all, |yaml|);
    assert all[..|yaml|] == yaml && all[|yaml| + 5..] == rest;
  }

  lemma FoundDivides(text: string)
    requires OPENING <= text
    ensures (exists i :: OccursAt(text[4..], CLOSING, i)) ==>
              exists y, r :: Divides(text, y, r) && ParseText(text) == FrontMatter(y, Trim(r))
    ensures (forall i :: !OccursAt(text[4..], CLOSING, i)) ==> ParseText(text) == MissingClose
  {
    hide Trim;
    var all := text[4..];
    assert text == OPENING + all;
    ParseOpened(all);
    var i := Find(all, CLOSING);
    if i != -1 {
      FoundSplits(all, CLOSING);
      var y, r := all[..i], all[i + 5..];
      assert all == y + CLOSING + r;
      assert Divides(text, y, r);
    }
  }

  /** What each result means. */
  lemma ParseMeans(content: string, yaml: string, body: string)
    ensures var text := Unify(content);
      && (Parse(content) == NoFrontMatter(body) <==> !("---\n" <= text) && body == Trim(text))
      && (Parse(content) == FrontMatter(yaml, body) <==> exists rest :: Divides(text, yaml, rest) && body == Trim(rest))
      && (Parse(content) == MissingClose <==> "---\n" <= text && forall i :: !OccursAt(text[4..], "\n---\n", i))
  {
    hide Unify, Trim, OccursAt, Divides;
    var text := Unify(content);
    forall y, r | Divides(text, y, r) ensures OPENING <= text && ParseText(text) == FrontMatter(y, Trim(r)) {
      DividesFinds(text, y, r);
    }
    if OPENING <= text {
      hide ParseText;
      FoundDivides(text);
    }
  }

  lemma ClosingStands(yaml: string, rest: string)
    ensures OccursAt(yaml + CLOSING + rest, CLOSING, |yaml|)
  {
  }

  // ---------------------------------------------------------------- round trip

  /** The front matter holds no closing delimiter of its own and neither part a Windows line end. */
  predicate Splittable(yaml: string, body: string) {
    && NoCrLf(yaml + [LF]) && NoCrLf(body)
    && !Occurs(yaml + [LF], CLOSING)
    && Trimmed(body)
  }

  lemma UnifyCompose(yaml: string, body: string)
    ensures Unify(Compose(yaml, body)) == OPENING + Unify(yaml + [LF]) + OPENING + Unify(body)
  {
    var head, s := yaml + [LF], Compose(yaml, body);
    assert s == (OPENING + head + OPENING) + body;
    UnifyConcat(OPENING + head + OPENING, body);
    UnifyConcat(OPENING + head, OPENING);
    UnifyConcat(OPENING, head);
    UnifyKeepsIff(OPENING);
  }

  lemma ParseOpened(rest: string)
    ensures ParseText(OPENING + rest) ==
            var i := Find(rest, CLOSING);
            if i == -1 then MissingClose else FrontMatter(rest[..i], Trim(rest[i + |CLOSING|..]))
  {
    assert (OPENING + rest)[|OPENING|..] == rest;
  }

  /** Splitting a composed file gives back its parts exactly when they can be told apart. */
  lemma SplitUndoesComposeIff(yaml: string, body: string)
    ensures Parse(Compose(yaml, body)) == FrontMatter(yaml, body) <==> Splittable(yaml, body)
  {
    hide Unify, Find, Trim, Trimmed, NoCrLf, ParseText;
    var u, v := Unify(yaml + [LF]), Unify(body);
    var rest := u + OPENING + v;
    UnifyCompose(yaml, body);
    assert OPENING + u + OPENING + v == OPENING + rest;
    ParseOpened(rest);
    UnifyKeepsIff(yaml + [LF]);
    UnifyKeepsIff(body);
    TrimIsTrimmed(v);
    UnifyLineEnd(yaml);
    var y := u[..|u| - 1];
    assert rest == y + CLOSING + v;
    FirstClosing(y, v);
    var i := Find(rest, CLOSING);
    if i == |y| {
      assert rest[i + |CLOSING|..] == v && rest[..i] == y;
    }
    assert yaml + [LF] == u <==> yaml == y;
    TrimIsShorter(v);
    TrimIsTrimmed(body);
  }

  lemma UnifyLineEnd(yaml: string)
    ensures var u := Unify(yaml + [LF]); u != "" && u[|u| - 1] == LF
  {
    UnifyLast(yaml + [LF]);
  }

  lemma TrimIsShorter(s: string)
    ensures |Trim(s)| <= |s|
  {
    TrimStartIsShorter(s);
    TrimEndShape(TrimStart(s));
  }

  lemma {:induction false} TrimStartIsShorter(s: string)
    ensures |TrimStart(s)| <= |s|
  {
    if s != "" && IsSpace(s[0]) { TrimStartIsShorter(s[1..]); }
  }

  // ---------------------------------------------------------------- Windows line ends

  /** Every LF written as CR LF. */
  function ToCrlf(s: string): string {
    if s == "" then "" else (if s[0] == LF then [CR, LF] else [s[0]]) + ToCrlf(s[1..])
  }

  /** Unifying undoes exactly one such rewriting, whatever was there before. */
  lemma {:induction false} UnifyUndoesCrlf(s: string)
    ensures Unify(ToCrlf(s)) == s
  {
    if s != "" {
      var t := ToCrlf(s[1..]);
      UnifyUndoesCrlf(s[1..]);
      assert s == [s[0]] + s[1..];
      if s[0] == LF {
        assert ToCrlf(s)[2..] == t;
      } else {
        assert ToCrlf(s)[1..] == t;
        assert t != "" ==> t[0] != LF;
      }
    }
  }

  /** No Windows line end in a part that the parse keeps or decides by. */
  predicate Indifferent(content: string) {
    match ParseText(content)
    case NoFrontMatter(body) => NoCrLf(body) && !("---\r\n" <= content)
    case FrontMatter(yaml, body) => NoCrLf(yaml + [LF]) && NoCrLf(body)
    case MissingClose => !Occurs(Unify(content[|OPENING|..]), CLOSING)
  }

  /** Turning every LF into CR LF keeps the parse exactly when the file held no CR LF that matters. */
  lemma CrlfKeepsParseIff(content: string)
    ensures Parse(ToCrlf(content)) == Parse(content) <==> Indifferent(content)
    ensures NoCrLf(content) ==> Parse(ToCrlf(content)) == Parse(content)
  {
    hide Unify, Find, Trim, NoCrLf, ToCrlf, Occurs;
    UnifyUndoesCrlf(content);
    UnifyKeepsIff(content);
    match ParseText(content) {
      case NoFrontMatter(body) => PlainCase(content);
      case FrontMatter(yaml, body) =>
        var rest := content[|OPENING|..];
        FoundSplits(rest, CLOSING);
        var tail := rest[|yaml| + |CLOSING|..];
        assert content == Compose(yaml, tail);
        SplitCase(yaml, tail);
      case MissingClose =>
        var rest := content[|OPENING|..];
        assert content == OPENING + rest;
        UnifyConcat(OPENING, rest);
        UnifyKeepsIff(OPENING);
        assert NoCrLf(OPENING) by { OpeningIsPlain(); }
        ParseOpened(Unify(rest));
        ClosingFound(Unify(rest));
    }
  }

  lemma OpeningIsPlain()
    ensures NoCrLf(OPENING)
  {
  }

  lemma ClosingFound(s: string)
    ensures Occurs(s, CLOSING) <==> Find(s, CLOSING) != -1
  {
  }

  lemma FoundSplits(s: string, d: string)
    ensures var i := Find(s, d); i != -1 ==> s == s[..i] + d + s[i + |d|..]
  {
    var i := Find(s, d);
    if i != -1 { assert OccursAt(s, d, i); }
  }

  lemma UnifiedOpening(s: string)
    ensures OPENING <= Unify(s) <==> OPENING <= s || "---\r\n" <= s
  {
    UnifyPrefix(s);
    if |s| >= 4 && s[0] == s[1] == s[2] == '-' {
      assert s == "---" + s[3..];
      UnifyConcat("---", s[3..]);
      UnifyKeepsIff("---");
      UnifyHead(s[3..]);
    }
  }

  /** Leading characters other than LF come from themselves. */
  lemma UnifyPrefix(s: string)
    ensures OPENING <= Unify(s) ==> |s| >= 4 && s[0] == s[1] == s[2] == '-'
  {
    var u := Unify(s);
    if OPENING <= u {
      assert u[0] == u[1] == u[2] == '-';
      assert s[0] == '-' && u[1..] == Unify(s[1..]);
      assert s[1] == '-' && u[2..] == Unify(s[1..][1..]);
      assert s[2] == '-';
    }
  }

  lemma PlainCase(content: string)
    requires !(OPENING <= content)
    ensures ParseText(content) == ParseText(Unify(content)) <==> NoCrLf(Trim(content)) && !("---\r\n" <= content)
  {
    hide Unify, Find, Trim, NoCrLf;
    UnifiedOpening(content);
    TrimUnify(content);
    UnifyKeepsIff(Trim(content));
  }

  lemma SplitCase(yaml: string, tail: string)
    requires ParseText(Compose(yaml, tail)) == FrontMatter(yaml, Trim(tail))
    ensures ParseText(Compose(yaml, tail)) == ParseText(Unify(Compose(yaml, tail))) <==>
            NoCrLf(yaml + [LF]) && NoCrLf(Trim(tail))
  {
    hide Unify, Find, Trim, NoCrLf, ParseText;
    var u, v := Unify(yaml + [LF]), Unify(tail);
    UnifyCompose(yaml, tail);
    UnifyLineEnd(yaml);
    var y := u[..|u| - 1];
    var rest, was := y + CLOSING + v, yaml + CLOSING + tail;
    assert OPENING + u + OPENING + v == OPENING + rest;
    assert Compose(yaml, tail) == OPENING + was;
    ParseOpened(rest);
    ParseOpened(was);
    FirstClosing(yaml, tail);
    FirstClosing(y, v);
    UnifyKeepsIff(yaml + [LF]);
    UnifyKeepsIff(Trim(tail));
    TrimUnify(tail);
    assert yaml + [LF] == u <==> yaml == y;
    if Find(rest, CLOSING) == |y| { assert rest[|y| + |CLOSING|..] == v && rest[..|y|] == y; }
  }

  /** A file that mixes line ends shows the difference. */
  lemma CrlfExample()
    ensures Parse("a\r\nb") == NoFrontMatter("a\nb")
    ensures Parse(ToCrlf("a\r\nb")) == NoFrontMatter("a\r\nb")
  {
    UnifyUndoesCrlf("a\r\nb");
    assert "a\r\nb"[1..] == "\r\nb" && "\r\nb"[2..] == "b" && "b"[1..] == "";
    assert Unify("a\r\nb") == "a\nb";
    TrimIsTrimmed("a\nb");
    TrimIsTrimmed("a\r\nb");
  }
}
