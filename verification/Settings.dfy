/** The scheduling settings as they are read from the front matter. */
module Settings {
  import opened Text
  import opened Types
  import Backoff

  const I64_MIN: int := -0x8000_0000_0000_0000

  /** A YAML value that may be a number or a string holding one. */
  datatype IntLike = Integer(value: int) | Str(text: string)

  predicate FitsI64(n: int) {
    I64_MIN <= n <= I64_MAX
  }

  // ---------------------------------------------------------------- numbers

  predicate IsDigit(c: char) {
    '0' <= c <= '9'
  }

  predicate AllDigits(s: string) {
    s != "" && forall i :: 0 <= i < |s| ==> IsDigit(s[i])
  }

  function Value(s: string): nat
    requires forall i :: 0 <= i < |s| ==> IsDigit(s[i])
  {
    if s == "" then 0
    else
      assert IsDigit(s[|s| - 1]);
      10 * Value(s[..|s| - 1]) + (s[|s| - 1] as int - '0' as int)
  }

  /** The digits after an optional sign. */
  function Unsigned(s: string): string {
    if s != "" && (s[0] == '+' || s[0] == '-') then s[1..] else s
  }

  /** `str::parse::<i64>`. */
  function FromDecimal(s: string): (n: Option<int>)
    ensures n.Some? ==> FitsI64(n.value)
  {
    if !AllDigits(Unsigned(s)) then None
    else
      var n: int := if s[0] == '-' then -(Value(Unsigned(s)) as int) else Value(Unsigned(s)) as int;
      if FitsI64(n) then Some(n) else None
  }

  function Digit(n: nat): char
    requires n < 10
  {
    ('0' as int + n) as char
  }

  function Decimal(n: nat): string {
    if n < 10 then [Digit(n)] else Decimal(n / 10) + [Digit(n % 10)]
  }

  function ToDecimal(n: int): string {
    if n < 0 then "-" + Decimal(-n) else Decimal(n)
  }

  lemma {:induction false} DecimalValue(n: nat)
    ensures AllDigits(Decimal(n)) && Value(Decimal(n)) == n
  {
    var s := Decimal(n);
    if n < 10 {
      assert s[..0] == "";
    } else {
      DecimalValue(n / 10);
      assert s[..|s| - 1] == Decimal(n / 10);
    }
  }

  /** A written number reads back as itself exactly when it fits 64 bits. */
  lemma DecimalRoundTripIff(n: int)
    ensures FromDecimal(ToDecimal(n)) == Some(n) <==> FitsI64(n)
    ensures !FitsI64(n) ==> FromDecimal(ToDecimal(n)) == None
  {
    var s := Decimal(if n < 0 then -n else n);
    DecimalValue(if n < 0 then -n else n);
    assert IsDigit(s[0]);
    assert ("-" + s)[1..] == s;
  }

  /** A number may carry a sign, either one; nothing but digits may follow. */
  lemma SignsMean(digits: string)
    requires AllDigits(digits)
    ensures FromDecimal(digits) == FromDecimal("+" + digits)
    ensures FromDecimal(digits) == if Value(digits) <= I64_MAX then Some(Value(digits)) else None
    ensures var n: int := Value(digits); FromDecimal("-" + digits) == if -n >= I64_MIN then Some(-n) else None
  {
    assert IsDigit(digits[0]);
    assert ("+" + digits)[1..] == digits && ("-" + digits)[1..] == digits;
  }

  lemma OtherwiseNoNumber(s: string)
    requires !AllDigits(s) && !(s != "" && s[0] in ['+', '-'] && AllDigits(s[1..]))
    ensures FromDecimal(s) == None
  {
  }

  /** Digits count by their place; zeros in front do not. */
  lemma PlacesMean(digits: string, n: nat)
    requires AllDigits(digits) && n < 10
    ensures AllDigits(digits + [Digit(n)]) && Value(digits + [Digit(n)]) == 10 * Value(digits) + n
    ensures AllDigits("0" + digits) && Value("0" + digits) == Value(digits)
  {
    assert (digits + [Digit(n)])[..|digits|] == digits;
    LeadingZero(digits);
  }

  lemma {:induction false} LeadingZero(digits: string)
    requires forall i :: 0 <= i < |digits| ==> IsDigit(digits[i])
    ensures forall i :: 0 <= i < |"0" + digits| ==> IsDigit(("0" + digits)[i])
    ensures Value("0" + digits) == Value(digits)
  {
    var all := "0" + digits;
    assert IsDigit(all[0]);
    if digits != "" {
      assert all[..|all| - 1] == "0" + digits[..|digits| - 1];
      LeadingZero(digits[..|digits| - 1]);
      assert IsDigit(digits[|digits| - 1]);
    } else {
      assert all[..0] == "";
    }
  }

  /** A number in the front matter fits 64 bits, or the YAML reader would have refused it. */
  predicate WellFormed(value: Option<IntLike>) {
    value.Some? && value.value.Integer? ==> FitsI64(value.value.value)
  }

  function ParseI64(value: Option<IntLike>, default: int): int {
    match value
    case Some(Integer(n)) => n
    case Some(Str(s)) => FromDecimal(s).GetOr(default)
    case None => default
  }

  /** The `as u32` cast. */
  function AsU32(n: int): nat {
    n % (U32_MAX + 1)
  }

  function ParseU64(value: Option<IntLike>, default: nat): nat {
    var parsed := ParseI64(value, Backoff.AsI64(default));
    if parsed < 0 then default else parsed
  }

  function ParseU32(value: Option<IntLike>, default: nat): nat {
    var parsed := ParseI64(value, default);
    if parsed < 0 then default else AsU32(parsed)
  }

  function ParseUsize(value: Option<IntLike>, default: nat): nat {
    var parsed := ParseI64(value, Backoff.AsI64(default));
    if parsed <= 0 then default else parsed
  }

  /** A non-negative setting, as a number or as a string holding one, is what the file says; only a 32-bit setting
      wraps, from 2^32 on, and only a count of zero means the default. */
  lemma SettingsAreLiteral(n: nat, default: nat, value: IntLike)
    requires FitsI64(n) && (value == Integer(n) || value == Str(ToDecimal(n)))
    ensures default <= I64_MAX ==> ParseU64(Some(value), default) == n
    ensures ParseU32(Some(value), default) == n <==> n <= U32_MAX
    ensures ParseUsize(Some(value), default) == if n == 0 then default else n
  {
    DecimalRoundTripIff(n);
    hide FromDecimal, ToDecimal;
  }

  /** 2^32 turns read as none. */
  lemma TurnLimitWraps()
    ensures ParseU32(Some(Integer(0x1_0000_0000)), 20) == 0
  {
  }

  // ---------------------------------------------------------------- lists

  /** The entries of `pieces` that are not empty once trimmed. */
  function TrimmedPieces(pieces: seq<string>): seq<string> {
    if pieces == [] then []
    else (if Trim(pieces[0]) == "" then [] else [Trim(pieces[0])]) + TrimmedPieces(pieces[1..])
  }

  /** A comma-separated string; a YAML list is taken as it is. */
  function ParseList(value: string): seq<string> {
    TrimmedPieces(Split(value, ','))
  }

  predicate IsEntry(s: string) {
    s != "" && Trimmed(s) && Free(s, ',')
  }

  lemma {:induction false} PiecesAreEntries(pieces: seq<string>)
    requires forall i :: 0 <= i < |pieces| ==> Free(pieces[i], ',')
    ensures forall i :: 0 <= i < |TrimmedPieces(pieces)| ==> IsEntry(TrimmedPieces(pieces)[i])
  {
    hide Trim, Trimmed;
    if pieces != [] {
      PiecesAreEntries(pieces[1..]);
      TrimIsTrimmed(pieces[0]);
      TrimStaysFree(pieces[0], ',');
    }
  }

  lemma TrimStaysFree(s: string, c: char)
    requires Free(s, c)
    ensures Free(Trim(s), c)
  {
    TrimStartTakesSuffix(s);
    TrimEndShape(TrimStart(s));
    var t := TrimStart(s);
    assert forall x :: x in t ==> x in s;
    assert Trim(s) == t[..|Trim(s)|];
    assert forall x :: x in Trim(s) ==> x in t;
  }

  lemma {:induction false} TrimStartTakesSuffix(s: string)
    ensures |TrimStart(s)| <= |s| && TrimStart(s) == s[|s| - |TrimStart(s)|..]
  {
    if s != "" && IsSpace(s[0]) { TrimStartTakesSuffix(s[1..]); }
  }

  lemma {:induction false} EntriesStay(items: seq<string>)
    requires forall i :: 0 <= i < |items| ==> IsEntry(items[i])
    ensures TrimmedPieces(items) == items
  {
    hide Trim, Trimmed, Free;
    if items != [] {
      TrimIsTrimmed(items[0]);
      EntriesStay(items[1..]);
      assert items == [items[0]] + items[1..];
    }
  }

  /** A joined list reads back as itself exactly when its entries are trimmed, not empty and free of commas. */
  lemma ListRoundTripIff(items: seq<string>)
    requires items != []
    ensures ParseList(Join(items, ',')) == items <==> forall i :: 0 <= i < |items| ==> IsEntry(items[i])
  {
    hide Trimmed, Split, Join;
    PiecesFree(Join(items, ','), ',');
    PiecesAreEntries(Split(Join(items, ','), ','));
    if forall i :: 0 <= i < |items| ==> IsEntry(items[i]) {
      assert forall p :: p in items ==> Free(p, ',');
      SplitOfJoin(items, ',');
      EntriesStay(items);
    }
  }

  lemma {:induction false} PiecesConcat(a: seq<string>, b: seq<string>)
    ensures TrimmedPieces(a + b) == TrimmedPieces(a) + TrimmedPieces(b)
  {
    hide Trim;
    if a == [] {
      assert a + b == b;
    } else {
      assert (a + b)[1..] == a[1..] + b;
      PiecesConcat(a[1..], b);
    }
  }

  lemma {:induction false} NoBlankPieces(pieces: seq<string>)
    requires forall i :: 0 <= i < |pieces| ==> Trim(pieces[i]) != ""
    ensures |TrimmedPieces(pieces)| == |pieces|
    ensures forall i :: 0 <= i < |pieces| ==> TrimmedPieces(pieces)[i] == Trim(pieces[i])
  {
    hide Trim;
    if pieces != [] { NoBlankPieces(pieces[1..]); }
  }

  lemma ListOfPieces(pieces: seq<string>)
    requires pieces != [] && forall p :: p in pieces ==> Free(p, ',')
    ensures ParseList(Join(pieces, ',')) == TrimmedPieces(pieces)
  {
    hide Trim, Split, Join, Free, TrimmedPieces;
    SplitOfJoin(pieces, ',');
  }

  /** Every piece that is not blank is an entry, trimmed, in its place. */
  lemma ListIsTrimmed(pieces: seq<string>)
    requires pieces != [] && forall i :: 0 <= i < |pieces| ==> Free(pieces[i], ',') && Trim(pieces[i]) != ""
    ensures |ParseList(Join(pieces, ','))| == |pieces|
    ensures forall i :: 0 <= i < |pieces| ==> ParseList(Join(pieces, ','))[i] == Trim(pieces[i])
  {
    hide Trim, Join, Free, TrimmedPieces, ParseList;
    ListOfPieces(pieces);
    NoBlankPieces(pieces);
  }

  /** A blank piece is none. */
  lemma ListIgnoresBlanks(a: seq<string>, blank: string, b: seq<string>)
    requires a + b != [] && Trim(blank) == ""
    requires (forall p :: p in a ==> Free(p, ',')) && Free(blank, ',') && (forall p :: p in b ==> Free(p, ','))
    ensures ParseList(Join(a + [blank] + b, ',')) == ParseList(Join(a + b, ','))
  {
    hide Trim, Join, Free, TrimmedPieces, ParseList;
    ListOfPieces(a + [blank] + b);
    ListOfPieces(a + b);
    PiecesConcat(a + [blank], b);
    PiecesConcat(a, [blank]);
    PiecesConcat(a, b);
    OneBlank(blank);
    assert TrimmedPieces(a) + [] == TrimmedPieces(a);
  }

  lemma OneBlank(blank: string)
    requires Trim(blank) == ""
    ensures TrimmedPieces([blank]) == []
  {
    assert [blank][1..] == [];
  }

  // ---------------------------------------------------------------- limits by state

  /** One entry of `max_concurrent_agents_by_state`. */
  datatype Entry = Entry(state: string, limit: IntLike)

  predicate Counts(entry: Entry) {
    ParseI64(Some(entry.limit), -1) > 0
  }

  /** Positive limits under their normalized state; a later entry replaces an earlier one. */
  function LimitsByState(entries: seq<Entry>): map<string, nat> {
    if entries == [] then map[]
    else
      var before, last := LimitsByState(entries[..|entries| - 1]), entries[|entries| - 1];
      if Counts(last) then before[Normalize(last.state) := ParseI64(Some(last.limit), -1)] else before
  }

  /** Entry `k` is the last positive one for `state`. */
  ghost predicate Decides(entries: seq<Entry>, k: int, state: string) {
    && 0 <= k < |entries| && Counts(entries[k]) && Normalize(entries[k].state) == state
    && forall j :: k < j < |entries| && Counts(entries[j]) ==> Normalize(entries[j].state) != state
  }

  /** A state has a limit of its own exactly when some positive entry names it, and then the last such entry's. */
  lemma {:induction false} LimitOfState(entries: seq<Entry>, state: string)
    ensures state in LimitsByState(entries) <==> exists k :: Decides(entries, k, state)
    ensures forall k :: Decides(entries, k, state) ==>
              && state in LimitsByState(entries)
              && LimitsByState(entries)[state] == ParseI64(Some(entries[k].limit), -1) > 0
    ensures state in LimitsByState(entries) ==> Normalize(state) == state
  {
    hide Normalize;
    if entries != [] {
      var n := |entries| - 1;
      var init, last := entries[..n], entries[n];
      LimitOfState(init, state);
      NormalizeIdempotent(last.state);
      if Counts(last) && Normalize(last.state) == state {
        assert Decides(entries, n, state);
      } else {
        forall k ensures Decides(entries, k, state) <==> Decides(init, k, state) {
          SameDecision(entries, k, state);
        }
      }
    }
  }

  lemma SameDecision(entries: seq<Entry>, k: int, state: string)
    requires entries != []
    requires !(Counts(entries[|entries| - 1]) && Normalize(entries[|entries| - 1].state) == state)
    ensures Decides(entries, k, state) <==> Decides(entries[..|entries| - 1], k, state)
  {
    hide Normalize, Counts;
    var n, init := |entries| - 1, entries[..|entries| - 1];
    if Decides(init, k, state) {
      forall j | k < j < |entries| && Counts(entries[j]) ensures Normalize(entries[j].state) != state {
        if j < n { assert init[j] == entries[j]; }
      }
    }
    if Decides(entries, k, state) && k < n {
      assert forall j :: 0 <= j < n ==> init[j] == entries[j];
    }
  }

  // ---------------------------------------------------------------- the agent section

  const DEFAULT_MAX_CONCURRENT_AGENTS: nat := 10
  const DEFAULT_MAX_TURNS: nat := 20
  const DEFAULT_MAX_RETRY_BACKOFF_MS: nat := 300_000
  const DEFAULT_STALL_TIMEOUT_MS: int := 300_000

  datatype RawAgent = RawAgent(
    maxAgents: Option<IntLike>,
    maxTurns: Option<IntLike>,
    maxBackoffMs: Option<IntLike>,
    maxByState: seq<Entry>,
    stallTimeoutMs: Option<IntLike>)

  predicate RawOk(raw: RawAgent) {
    && WellFormed(raw.maxAgents) && WellFormed(raw.maxTurns)
    && WellFormed(raw.maxBackoffMs) && WellFormed(raw.stallTimeoutMs)
    && forall i :: 0 <= i < |raw.maxByState| ==> WellFormed(Some(raw.maxByState[i].limit))
  }

  /** The part of `build_effective_config` that the orchestrator schedules by. */
  function Build(raw: RawAgent, activeStates: seq<string>, terminalStates: seq<string>, root: string,
                 dispatchable: bool): Config {
    Config(
      activeStates, terminalStates,
      ParseUsize(raw.maxAgents, DEFAULT_MAX_CONCURRENT_AGENTS),
      LimitsByState(raw.maxByState),
      ParseU32(raw.maxTurns, DEFAULT_MAX_TURNS),
      ParseU64(raw.maxBackoffMs, DEFAULT_MAX_RETRY_BACKOFF_MS),
      ParseI64(raw.stallTimeoutMs, DEFAULT_STALL_TIMEOUT_MS),
      root, dispatchable)
  }

  /** The setting is the number `n`, written as such or in a string. */
  predicate Says(value: Option<IntLike>, n: int) {
    value == Some(Integer(n)) || (value.Some? && value.value.Str? && FromDecimal(value.value.text) == Some(n))
  }

  /** The setting is missing, or a string that is no number. */
  predicate SaysNothing(value: Option<IntLike>) {
    value.None? || (value.value.Str? && FromDecimal(value.value.text).None?)
  }

  lemma SaysOrNot(value: Option<IntLike>)
    ensures SaysNothing(value) <==> forall n :: !Says(value, n)
  {
    hide FromDecimal;
    if !SaysNothing(value) {
      if value.value.Integer? {
        assert Says(value, value.value.value);
      } else {
        assert Says(value, FromDecimal(value.value.text).value);
      }
    }
  }

  /** A state's entry counts exactly if it gives a positive number, and then for that number. */
  lemma EntryMeans(entry: Entry, n: int)
    requires Says(Some(entry.limit), n)
    ensures Counts(entry) <==> n > 0
    ensures ParseI64(Some(entry.limit), -1) == n
  {
  }

  lemma MuteEntryMeans(entry: Entry)
    requires SaysNothing(Some(entry.limit))
    ensures !Counts(entry)
  {
  }

  /** Field by field, what a setting in the file becomes: ten agents unless it says how many, at least one; twenty
      turns unless it says how many, modulo 2^32; five minutes at most between attempts unless it says otherwise;
      and five minutes of silence unless it says otherwise, where zero or less turns the watch off. */
  lemma BuiltConfigIsLiteral(raw: RawAgent, activeStates: seq<string>, terminalStates: seq<string>, root: string,
                             dispatchable: bool, n: int)
    ensures var c := Build(raw, activeStates, terminalStates, root, dispatchable);
      && (Says(raw.maxAgents, n) ==> c.maxAgents == if n > 0 then n else 10)
      && (SaysNothing(raw.maxAgents) ==> c.maxAgents == 10)
      && (Says(raw.maxTurns, n) ==> c.maxTurns == if n < 0 then 20 else n % 0x1_0000_0000)
      && (SaysNothing(raw.maxTurns) ==> c.maxTurns == 20)
      && (Says(raw.maxBackoffMs, n) ==> c.maxBackoffMs == if n < 0 then 300_000 else n)
      && (SaysNothing(raw.maxBackoffMs) ==> c.maxBackoffMs == 300_000)
      && (Says(raw.stallTimeoutMs, n) ==> c.stallTimeoutMs == n)
      && (SaysNothing(raw.stallTimeoutMs) ==> c.stallTimeoutMs == 300_000)
      && c.activeStates == activeStates && c.terminalStates == terminalStates && c.root == root
      && c.dispatchable == dispatchable
  {
    hide FromDecimal, LimitsByState;
  }

  /** Whatever the file says, at least one agent may run, every limit is positive, and no retry delay wraps when it
      is cast to a signed number. */
  lemma BuiltConfigIsSafe(raw: RawAgent, activeStates: seq<string>, terminalStates: seq<string>, root: string,
                                             dispatchable: bool, attempt: nat, state: string)
    requires RawOk(raw)
    ensures var c := Build(raw, activeStates, terminalStates, root, dispatchable);
      && 1 <= c.maxAgents <= I64_MAX && c.maxTurns <= U32_MAX && c.maxBackoffMs <= I64_MAX
      && c.Limit(state) >= 1
      && Backoff.AsI64(Backoff.RetryDelayMs(attempt, c.maxBackoffMs)) == Backoff.RetryDelayMs(attempt, c.maxBackoffMs)
  {
    hide FromDecimal, Backoff.RetryDelayMs;
    var c := Build(raw, activeStates, terminalStates, root, dispatchable);
    Backoff.CastKeepsDelayIff(c.maxBackoffMs);
    LimitOfState(raw.maxByState, state);
    if state in c.maxByState {
      var k :| Decides(raw.maxByState, k, state);
    }
  }
}
