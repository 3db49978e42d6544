/** JSON values and the two recursive searches over them. */
module Json {
  import opened Types

  /** A JSON value; `Float` stands for any number that is not an integer. */
  datatype Value =
    | Null
    | Bool(b: bool)
    | Int(n: int)
    | Float
    | Str(s: string)
    | Arr(items: seq<Value>)
    | Obj(fields: seq<Field>)

  /** Fields stand in the order in which the object's map is walked. */
  datatype Field = Field(key: string, value: Value)

  function Lookup(fields: seq<Field>, key: string): (found: Option<Value>)
    ensures found.Some? ==> exists i :: 0 <= i < |fields| && fields[i] == Field(key, found.value)
    ensures found.None? <==> forall i :: 0 <= i < |fields| ==> fields[i].key != key
  {
    if fields == [] then None else if fields[0].key == key then Some(fields[0].value) else Lookup(fields[1..], key)
  }

  /** `Value::get`: anything but an object has no keys. */
  function Get(v: Value, key: string): (found: Option<Value>)
    ensures found.Some? ==> found.value < v
  {
    if v.Obj? then Lookup(v.fields, key) else None
  }

  function GetEither(v: Value, first: string, second: string): (found: Option<Value>)
    ensures found.Some? ==> found.value < v
  {
    var f := Get(v, first);
    if f.Some? then f else Get(v, second)
  }

  function AsU64(v: Value): Option<nat> {
    if v.Int? && 0 <= v.n <= U64_MAX then Some(v.n) else None
  }

  function AsStr(v: Value): Option<string> {
    if v.Str? then Some(v.s) else None
  }

  function OptU64(v: Option<Value>): Option<nat> {
    if v.Some? then AsU64(v.value) else None
  }

  function OptStr(v: Option<Value>): Option<string> {
    if v.Some? then AsStr(v.value) else None
  }

  // ---------------------------------------------------------------- extract_token_usage

  function TotalChild(v: Value): (child: Option<Value>)
    ensures child.Some? ==> child.value < v
  {
    GetEither(v, "total_token_usage", "totalTokenUsage")
  }

  /** The counts an object names itself; a missing total is the sum, in 64 bits. */
  function OwnTokens(v: Value): Option<Tokens> {
    var input := OptU64(GetEither(v, "input_tokens", "inputTokens"));
    var output := OptU64(GetEither(v, "output_tokens", "outputTokens"));
    var named := OptU64(GetEither(v, "total_tokens", "totalTokens"));
    var total :=
      if named.Some? then named
      else if input.Some? && output.Some? then Some((input.value + output.value) % (U64_MAX + 1)) else None;
    if input.Some? || output.Some? || total.Some?
    then Some(Tokens(input.GetOr(0), output.GetOr(0), total.GetOr(0))) else None
  }

  /** `extract_token_usage`. */
  function ExtractTokens(v: Value): Option<Tokens>
    decreases v, 1, 0
  {
    var child := TotalChild(v);
    if child.Some? then ExtractTokens(child.value)
    else if v.Obj? then
      var own := OwnTokens(v);
      if own.Some? then own else FirstInFields(v, 0)
    else if v.Arr? then FirstInItems(v, 0)
    else None
  }

  function FirstInFields(v: Value, i: nat): Option<Tokens>
    requires v.Obj? && i <= |v.fields|
    decreases v, 0, |v.fields| - i
  {
    if i == |v.fields| then None
    else
      var found := ExtractTokens(v.fields[i].value);
      if found.Some? then found else FirstInFields(v, i + 1)
  }

  function FirstInItems(v: Value, i: nat): Option<Tokens>
    requires v.Arr? && i <= |v.items|
    decreases v, 0, |v.items| - i
  {
    if i == |v.items| then None
    else
      var found := ExtractTokens(v.items[i]);
      if found.Some? then found else FirstInItems(v, i + 1)
  }

  // ---------------------------------------------------------------- find_string

  function OwnString(v: Value, keys: seq<string>): Option<string> {
    if keys == [] then None
    else
      var found := OptStr(Get(v, keys[0]));
      if found.Some? then found else OwnString(v, keys[1..])
  }

  /** `find_string`. */
  function FindString(v: Value, keys: seq<string>): Option<string>
    decreases v, 1, 0
  {
    if v.Obj? then
      var own := OwnString(v, keys);
      if own.Some? then own else StringInFields(v, keys, 0)
    else if v.Arr? then StringInItems(v, keys, 0)
    else None
  }

  function StringInFields(v: Value, keys: seq<string>, i: nat): Option<string>
    requires v.Obj? && i <= |v.fields|
    decreases v, 0, |v.fields| - i
  {
    if i == |v.fields| then None
    else
      var found := FindString(v.fields[i].value, keys);
      if found.Some? then found else StringInFields(v, keys, i + 1)
  }

  function StringInItems(v: Value, keys: seq<string>, i: nat): Option<string>
    requires v.Arr? && i <= |v.items|
    decreases v, 0, |v.items| - i
  {
    if i == |v.items| then None
    else
      var found := FindString(v.items[i], keys);
      if found.Some? then found else StringInItems(v, keys, i + 1)
  }

  // ---------------------------------------------------------------- the searches, declared

  /** All values below `v`, parents first; with `narrow`, a running-total child is the only one followed. */
  function Preorder(v: Value, narrow: bool): seq<Value>
    decreases v, 1, 0
  {
    if narrow && TotalChild(v).Some? then [v] + Preorder(TotalChild(v).value, narrow)
    else if v.Obj? then [v] + PreorderFields(v, narrow, 0)
    else if v.Arr? then [v] + PreorderItems(v, narrow, 0)
    else [v]
  }

  function PreorderFields(v: Value, narrow: bool, i: nat): seq<Value>
    requires v.Obj? && i <= |v.fields|
    decreases v, 0, |v.fields| - i
  {
    if i == |v.fields| then [] else Preorder(v.fields[i].value, narrow) + PreorderFields(v, narrow, i + 1)
  }

  function PreorderItems(v: Value, narrow: bool, i: nat): seq<Value>
    requires v.Arr? && i <= |v.items|
    decreases v, 0, |v.items| - i
  {
    if i == |v.items| then [] else Preorder(v.items[i], narrow) + PreorderItems(v, narrow, i + 1)
  }

  /** What one visited value offers: nothing if its running-total child was followed instead. */
  function TokensAt(v: Value): Option<Tokens> {
    if TotalChild(v).Some? then None else if v.Obj? then OwnTokens(v) else None
  }

  function FirstTokens(vs: seq<Value>): Option<Tokens> {
    if vs == [] then None else if TokensAt(vs[0]).Some? then TokensAt(vs[0]) else FirstTokens(vs[1..])
  }

  function StringAt(v: Value, keys: seq<string>): Option<string> {
    if v.Obj? then OwnString(v, keys) else None
  }

  function FirstString(vs: seq<Value>, keys: seq<string>): Option<string> {
    if vs == [] then None else if StringAt(vs[0], keys).Some? then StringAt(vs[0], keys) else FirstString(vs[1..], keys)
  }

  lemma {:induction false} FirstTokensConcat(a: seq<Value>, b: seq<Value>)
    ensures FirstTokens(a + b) == if FirstTokens(a).Some? then FirstTokens(a) else FirstTokens(b)
  {
    hide TokensAt;
    if a == [] {
      assert a + b == b;
    } else {
      assert (a + b)[1..] == a[1..] + b && (a + b)[0] == a[0];
      FirstTokensConcat(a[1..], b);
    }
  }

  lemma {:induction false} FirstStringConcat(a: seq<Value>, b: seq<Value>, keys: seq<string>)
    ensures FirstString(a + b, keys) ==
            if FirstString(a, keys).Some? then FirstString(a, keys) else FirstString(b, keys)
  {
    hide StringAt;
    if a == [] {
      assert a + b == b;
    } else {
      assert (a + b)[1..] == a[1..] + b && (a + b)[0] == a[0];
      FirstStringConcat(a[1..], b, keys);
    }
  }

  /** The recursive search with its early returns finds the first offer in parents-first order. */
  lemma {:induction false} TokensAreFirst(v: Value)
    ensures ExtractTokens(v) == FirstTokens(Preorder(v, true))
    decreases v, 1, 0
  {
    hide OwnTokens, TotalChild;
    var child := TotalChild(v);
    assert TokensAt(v).Some? ==> child.None? && v.Obj?;
    if child.Some? {
      TokensAreFirst(child.value);
      FirstTokensConcat([v], Preorder(child.value, true));
    } else if v.Obj? {
      TokensInFields(v, 0);
      FirstTokensConcat([v], PreorderFields(v, true, 0));
    } else if v.Arr? {
      TokensInItems(v, 0);
      FirstTokensConcat([v], PreorderItems(v, true, 0));
    }
  }

  lemma {:induction false} TokensInFields(v: Value, i: nat)
    requires v.Obj? && i <= |v.fields|
    ensures FirstInFields(v, i) == FirstTokens(PreorderFields(v, true, i))
    decreases v, 0, |v.fields| - i
  {
    if i < |v.fields| {
      TokensAreFirst(v.fields[i].value);
      TokensInFields(v, i + 1);
      FirstTokensConcat(Preorder(v.fields[i].value, true), PreorderFields(v, true, i + 1));
    }
  }

  lemma {:induction false} TokensInItems(v: Value, i: nat)
    requires v.Arr? && i <= |v.items|
    ensures FirstInItems(v, i) == FirstTokens(PreorderItems(v, true, i))
    decreases v, 0, |v.items| - i
  {
    if i < |v.items| {
      TokensAreFirst(v.items[i]);
      TokensInItems(v, i + 1);
      FirstTokensConcat(Preorder(v.items[i], true), PreorderItems(v, true, i + 1));
    }
  }

  /** The value itself names counts. */
  predicate NamesCounts(v: Value) {
    v.Obj? && OwnTokens(v).Some?
  }

  lemma {:induction false} FirstTokensFound(vs: seq<Value>)
    ensures FirstTokens(vs).Some? <==> exists u :: u in vs && TokensAt(u).Some?
  {
    hide TokensAt;
    if vs != [] {
      FirstTokensFound(vs[1..]);
      assert vs == [vs[0]] + vs[1..];
    }
  }

  /** A running-total child is one of the object's own values. */
  lemma TotalChildIsField(v: Value)
    requires TotalChild(v).Some?
    ensures v.Obj? && exists i :: 0 <= i < |v.fields| && v.fields[i].value == TotalChild(v).value
  {
  }

  lemma {:induction false} FieldsBelow(v: Value, i: nat, k: nat)
    requires v.Obj? && i <= k < |v.fields|
    ensures forall u :: u in Preorder(v.fields[k].value, false) ==> u in PreorderFields(v, false, i)
    decreases k - i
  {
    if i < k { FieldsBelow(v, i + 1, k); }
  }

  /** The search visits only values that are there. */
  lemma {:induction false} NarrowIsBelow(v: Value)
    ensures forall u :: u in Preorder(v, true) ==> u in Preorder(v, false)
    decreases v, 1, 0
  {
    hide TotalChild;
    if TotalChild(v).Some? {
      TotalChildIsField(v);
      var i :| 0 <= i < |v.fields| && v.fields[i].value == TotalChild(v).value;
      NarrowIsBelow(TotalChild(v).value);
      FieldsBelow(v, 0, i);
    } else if v.Obj? {
      NarrowFields(v, 0);
    } else if v.Arr? {
      NarrowItems(v, 0);
    }
  }

  lemma {:induction false} NarrowFields(v: Value, i: nat)
    requires v.Obj? && i <= |v.fields|
    ensures forall u :: u in PreorderFields(v, true, i) ==> u in PreorderFields(v, false, i)
    decreases v, 0, |v.fields| - i
  {
    if i < |v.fields| {
      NarrowIsBelow(v.fields[i].value);
      NarrowFields(v, i + 1);
    }
  }

  lemma {:induction false} NarrowItems(v: Value, i: nat)
    requires v.Arr? && i <= |v.items|
    ensures forall u :: u in PreorderItems(v, true, i) ==> u in PreorderItems(v, false, i)
    decreases v, 0, |v.items| - i
  {
    if i < |v.items| {
      NarrowIsBelow(v.items[i]);
      NarrowItems(v, i + 1);
    }
  }

  /** Counts stand somewhere in the report, and the search comes back without any. */
  ghost predicate Lost(v: Value) {
    ExtractTokens(v).None? && exists u :: u in Preorder(v, false) && NamesCounts(u)
  }

  /** The search is led past the counts that `u` names: by a running total of its own, or by one above it. */
  ghost predicate Bypassed(v: Value, u: Value) {
    TotalChild(u).Some? || u !in Preorder(v, true)
  }

  /** Counts are lost exactly when there are some and a running total leads past every one of them; without any
      running total, every count in the report can be found. */
  lemma CountsLostIff(v: Value)
    ensures Lost(v) <==>
            && (exists u :: u in Preorder(v, false) && NamesCounts(u))
            && (forall u :: u in Preorder(v, false) && NamesCounts(u) ==> Bypassed(v, u))
    ensures (forall u :: u in Preorder(v, false) ==> TotalChild(u).None?) ==> !Lost(v)
  {
    hide Preorder, OwnTokens, TotalChild, ExtractTokens;
    TokensAreFirst(v);
    FirstTokensFound(Preorder(v, true));
    NarrowIsBelow(v);
    forall u ensures TokensAt(u).Some? <==> TotalChild(u).None? && NamesCounts(u) {
    }
    if forall u :: u in Preorder(v, false) ==> TotalChild(u).None? { NoTotalsSameWalk(v); }
  }

  lemma NoTotalsSameWalk(v: Value)
    requires forall u :: u in Preorder(v, false) ==> TotalChild(u).None?
    ensures Preorder(v, true) == Preorder(v, false)
    decreases v, 1, 0
  {
    hide TotalChild;
    assert Preorder(v, false)[0] == v;
    if v.Obj? {
      assert forall u :: u in PreorderFields(v, false, 0) ==> u in Preorder(v, false);
      NoTotalsFields(v, 0);
    } else if v.Arr? {
      assert forall u :: u in PreorderItems(v, false, 0) ==> u in Preorder(v, false);
      NoTotalsItems(v, 0);
    }
  }

  lemma {:induction false} NoTotalsFields(v: Value, i: nat)
    requires v.Obj? && i <= |v.fields|
    requires forall u :: u in PreorderFields(v, false, i) ==> TotalChild(u).None?
    ensures PreorderFields(v, true, i) == PreorderFields(v, false, i)
    decreases v, 0, |v.fields| - i
  {
    hide TotalChild;
    if i < |v.fields| {
      NoTotalsSameWalk(v.fields[i].value);
      NoTotalsFields(v, i + 1);
    }
  }

  lemma {:induction false} NoTotalsItems(v: Value, i: nat)
    requires v.Arr? && i <= |v.items|
    requires forall u :: u in PreorderItems(v, false, i) ==> TotalChild(u).None?
    ensures PreorderItems(v, true, i) == PreorderItems(v, false, i)
    decreases v, 0, |v.items| - i
  {
    hide TotalChild;
    if i < |v.items| {
      NoTotalsSameWalk(v.items[i]);
      NoTotalsItems(v, i + 1);
    }
  }

  /** A report that loses its counts: an empty running total beside a named count. */
  lemma LostExample()
    ensures Lost(Obj([Field("total_token_usage", Null), Field("usage", Obj([Field("input_tokens", Int(1))]))]))
  {
    var usage := Obj([Field("input_tokens", Int(1))]);
    var v := Obj([Field("total_token_usage", Null), Field("usage", usage)]);
    assert Lookup(v.fields, "total_token_usage") == Some(Null);
    assert OptU64(GetEither(usage, "input_tokens", "inputTokens")) == Some(1);
    FieldsBelow(v, 0, 1);
    assert Preorder(usage, false)[0] == usage;
    assert usage in Preorder(v, false) by { assert usage in PreorderFields(v, false, 0); }
    assert NamesCounts(usage);
    assert TotalChild(v) == Some(Null) && ExtractTokens(v) == ExtractTokens(Null);
  }

  /** Without a named total the sum stands in, and it is exact just when it fits 64 bits. */
  lemma MissingTotal(v: Value, input: nat, output: nat)
    requires v.Obj? && TotalChild(v).None?
    requires OptU64(GetEither(v, "input_tokens", "inputTokens")) == Some(input)
    requires OptU64(GetEither(v, "output_tokens", "outputTokens")) == Some(output)
    requires OptU64(GetEither(v, "total_tokens", "totalTokens")).None?
    ensures ExtractTokens(v) == Some(Tokens(input, output, input + output)) <==> input + output <= U64_MAX
  {
  }

  /** The value names `n` under the first key, or under the second where the first is missing. */
  predicate CountOf(v: Value, first: string, second: string, n: nat) {
    && n <= U64_MAX
    && (Get(v, first) == Some(Int(n)) || (Get(v, first).None? && Get(v, second) == Some(Int(n))))
  }

  /** `n` is the count the value names under these keys, if it names one. */
  ghost predicate CountIs(v: Value, first: string, second: string, n: Option<nat>) {
    match n
    case Some(x) => CountOf(v, first, second, x)
    case None => forall x: nat :: !CountOf(v, first, second, x)
  }

  lemma CountFound(v: Value, first: string, second: string, n: Option<nat>)
    ensures CountIs(v, first, second, n) <==> OptU64(GetEither(v, first, second)) == n
  {
    hide Get;
    var found := GetEither(v, first, second);
    if OptU64(found).Some? { assert CountOf(v, first, second, OptU64(found).value); }
  }

  /** What an object's own counts come to: each is found under either spelling of its name, a named total is taken
      as it is, and a running total is followed instead. */
  lemma CountsMean(v: Value, input: Option<nat>, output: Option<nat>, total: Option<nat>)
    requires v.Obj?
    requires CountIs(v, "input_tokens", "inputTokens", input) && CountIs(v, "output_tokens", "outputTokens", output)
    requires CountIs(v, "total_tokens", "totalTokens", total)
    ensures Get(v, "total_token_usage").Some? ==> ExtractTokens(v) == ExtractTokens(Get(v, "total_token_usage").value)
    ensures Get(v, "total_token_usage").None? && Get(v, "totalTokenUsage").Some? ==>
              ExtractTokens(v) == ExtractTokens(Get(v, "totalTokenUsage").value)
    ensures Get(v, "total_token_usage").None? && Get(v, "totalTokenUsage").None? ==>
              && (total.Some? ==> ExtractTokens(v) == Some(Tokens(input.GetOr(0), output.GetOr(0), total.value)))
              && (total.None? && input.Some? && output.Some? && input.value + output.value <= U64_MAX ==>
                    ExtractTokens(v) == Some(Tokens(input.value, output.value, input.value + output.value)))
              && (total.None? && input.Some? && output.None? ==> ExtractTokens(v) == Some(Tokens(input.value, 0, 0)))
              && (total.None? && input.None? && output.Some? ==> ExtractTokens(v) == Some(Tokens(0, output.value, 0)))
  {
    hide Get, CountIs;
    CountFound(v, "input_tokens", "inputTokens", input);
    CountFound(v, "output_tokens", "outputTokens", output);
    CountFound(v, "total_tokens", "totalTokens", total);
  }

  /** `find_string` gives the first string under one of the keys, parents first. */
  lemma StringIsFirst(v: Value, keys: seq<string>)
    ensures FindString(v, keys) == FirstString(Preorder(v, false), keys)
    decreases v, 1, 0
  {
    hide OwnString;
    if v.Obj? {
      StringsInFields(v, keys, 0);
      FirstStringConcat([v], PreorderFields(v, false, 0), keys);
    } else if v.Arr? {
      StringsInItems(v, keys, 0);
      FirstStringConcat([v], PreorderItems(v, false, 0), keys);
    }
  }

  lemma {:induction false} StringsInFields(v: Value, keys: seq<string>, i: nat)
    requires v.Obj? && i <= |v.fields|
    ensures StringInFields(v, keys, i) == FirstString(PreorderFields(v, false, i), keys)
    decreases v, 0, |v.fields| - i
  {
    if i < |v.fields| {
      StringIsFirst(v.fields[i].value, keys);
      StringsInFields(v, keys, i + 1);
      FirstStringConcat(Preorder(v.fields[i].value, false), PreorderFields(v, false, i + 1), keys);
    }
  }

  lemma {:induction false} StringsInItems(v: Value, keys: seq<string>, i: nat)
    requires v.Arr? && i <= |v.items|
    ensures StringInItems(v, keys, i) == FirstString(PreorderItems(v, false, i), keys)
    decreases v, 0, |v.items| - i
  {
    if i < |v.items| {
      StringIsFirst(v.items[i], keys);
      StringsInItems(v, keys, i + 1);
      FirstStringConcat(Preorder(v.items[i], false), PreorderItems(v, false, i + 1), keys);
    }
  }

  /** Of an object's own strings the one under the earliest of the keys is taken. */
  lemma {:induction false} EarliestKeyWins(v: Value, keys: seq<string>)
    ensures forall k :: 0 <= k < |keys| && OptStr(Get(v, keys[k])).Some?
                        && (forall j :: 0 <= j < k ==> OptStr(Get(v, keys[j])).None?) ==>
              OwnString(v, keys) == OptStr(Get(v, keys[k]))
    ensures (forall k :: 0 <= k < |keys| ==> OptStr(Get(v, keys[k])).None?) ==> OwnString(v, keys).None?
  {
    hide Get;
    if keys != [] {
      EarliestKeyWins(v, keys[1..]);
      forall k | 0 < k < |keys| && OptStr(Get(v, keys[k])).Some?
                 && forall j :: 0 <= j < k ==> OptStr(Get(v, keys[j])).None?
        ensures OwnString(v, keys) == OptStr(Get(v, keys[k]))
      {
        assert keys[1..][k - 1] == keys[k] && OptStr(Get(v, keys[0])).None?;
        assert forall j :: 0 <= j < k - 1 ==> keys[1..][j] == keys[j + 1];
      }
    }
  }

  // ---------------------------------------------------------------- extract_string

  function Walk(v: Value, path: seq<string>): Option<Value> {
    if path == [] then Some(v)
    else if Get(v, path[0]).Some? then Walk(Get(v, path[0]).value, path[1..]) else None
  }

  /** `extract_string`: the first path that leads to a string. */
  function ExtractString(v: Value, paths: seq<seq<string>>): Option<string> {
    if paths == [] then None
    else
      var found := OptStr(Walk(v, paths[0]));
      if found.Some? then found else ExtractString(v, paths[1..])
  }

  lemma ExtractTwo(v: Value, p: seq<string>, q: seq<string>)
    ensures ExtractString(v, [p, q]) == if OptStr(Walk(v, p)).Some? then OptStr(Walk(v, p)) else OptStr(Walk(v, q))
  {
    hide Walk;
    assert [p, q][1..] == [q] && [q][1..] == [];
    assert ExtractString(v, []) == None;
    assert ExtractString(v, [q]) == OptStr(Walk(v, q));
  }

  /** Asked for a nested name or a flat one, it takes the string under the nested name if there is one, else the
      flat one. */
  lemma NestedOrFlat(v: Value, outer: string, inner: string, flat: string)
    ensures var nested := if Get(v, outer).Some? then OptStr(Get(Get(v, outer).value, inner)) else None;
      ExtractString(v, [[outer, inner], [flat]]) == if nested.Some? then nested else OptStr(Get(v, flat))
  {
    hide Get, ExtractString;
    ExtractTwo(v, [outer, inner], [flat]);
    assert [outer, inner][1..] == [inner] && [inner][1..] == [] && [flat][1..] == [];
    if Get(v, outer).Some? { assert Walk(Get(v, outer).value, [inner]) == Get(Get(v, outer).value, inner); }
    assert Walk(v, [outer, inner]) == if Get(v, outer).Some? then Get(Get(v, outer).value, inner) else None;
    assert Walk(v, [flat]) == Get(v, flat);
  }
}
