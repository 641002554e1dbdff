/** The loop shared by `buildOpToDefaultModeList`, `buildOpToSwitchList` and
    `buildOpToNameList`: look up each op code in turn and, after the first
    out-of-range fault, stop looking up and fill the rest with a placeholder. */
module OpTables {
  import opened Java
  import opened Effects

  /** What one lookup contributes to the table, as decided by the builders'
      `catch` clauses. */
  datatype Verdict<+T> =
    | Keep(value: T)          // the lookup answered
    | Skip                    // a HiddenAPIsException with another cause: swallowed, nothing added
    | Degrade(notice: Notice) // stop looking up, notify once, backfill from the next index on
    | Rethrow(t: Throwable)   // escapes the builder

  /** `onMissing` is the notice for a `HiddenAPIsError` caused by `NoSuchMethodError`
      when the builder catches that too (only the default-mode builder does, and only
      in daemon mode); otherwise such errors escape. */
  function Classify<T>(c: Call<T>, onMissing: Option<Notice>): (v: Verdict<T>)
    ensures c.Ok? <==> v.Keep?
    ensures v.Skip? ==> c.IsHiddenApisException()
    ensures v.Degrade? ==> c.Threw? && !c.thrown.Unchecked?
    ensures v.Rethrow? ==> v.t == c.thrown && !c.IsHiddenApisException()
  {
    match c
    case Ok(x) => Keep(x)
    case Threw(HiddenApisException(ArrayIndexOutOfBoundsException)) => Degrade(OpNumInconsistency)
    case Threw(HiddenApisException(_)) => Skip
    case Threw(HiddenApisError(NoSuchMethodError)) =>
      if onMissing.Some? then Degrade(onMissing.value) else Rethrow(c.thrown)
    case Threw(t) => Rethrow(t)
  }

  predicate Halts<T>(v: Verdict<T>) {
    v.Degrade? || v.Rethrow?
  }

  /** The first index in `[i, n)` whose lookup halts the real lookups, or `n` (at
      least `i`) when there is none. */
  function FirstHalt<T>(lookup: int -> Call<T>, onMissing: Option<Notice>, i: int, n: int): (k: int)
    requires 0 <= i
    ensures i <= k
    ensures k <= n || k == i
    ensures k < n ==> Halts(Classify(lookup(k), onMissing))
    ensures forall j :: i <= j < k && j < n ==> !Halts(Classify(lookup(j), onMissing))
    decreases n - i
  {
    if n <= i then i
    else if Halts(Classify(lookup(i), onMissing)) then i
    else FirstHalt(lookup, onMissing, i + 1, n)
  }

  /** The answers of the lookups at indices `0 .. k-1`, in order, leaving out the
      swallowed ones. */
  function Real<T>(lookup: int -> Call<T>, onMissing: Option<Notice>, k: int): seq<T>
    decreases k
  {
    if k <= 0 then []
    else
      var rest := Real(lookup, onMissing, k - 1);
      match Classify(lookup(k - 1), onMissing)
      case Keep(v) => rest + [v]
      case _ => rest
  }

  /** The placeholders for indices `from .. to-1`, in order. */
  function Backfill<T>(placeholder: int -> T, from: int, to: int): (s: seq<T>)
    ensures |s| == if to <= from then 0 else to - from
    ensures forall j :: 0 <= j < |s| ==> s[j] == placeholder(from + j)
    decreases if to <= from then 0 else to - from
  {
    if to <= from then [] else Backfill(placeholder, from, to - 1) + [placeholder(to - 1)]
  }

  /** The result of one build: how many lookups were made (always those at indices
      `0 .. queried-1`), what was emitted, and the table or the escaping throwable. */
  datatype Build<T> = Build(queried: nat, effects: seq<Effect>, out: Call<seq<T>>)

  /** The reference result of a build over `0 <= i < n`, read off the first halting
      index `k`: with no halt, the real answers; at a degrading fault, the real answers
      before `k` followed by the placeholders of `k+1 .. n-1`, one notice and one stack
      trace; at an escaping throwable, that throwable. In every case the lookups made
      are exactly those at `0 .. k` (or `0 .. n-1` without a halt). */
  function Expected<T>(n: int, lookup: int -> Call<T>, onMissing: Option<Notice>, placeholder: int -> T): Build<T> {
    var k := FirstHalt(lookup, onMissing, 0, n);
    if k >= n then Build(k, [], Ok(Real(lookup, onMissing, k)))
    else
      var v := Classify(lookup(k), onMissing);
      if v.Degrade? then
        Build(k + 1, [Notify(v.notice), StackTrace], Ok(Real(lookup, onMissing, k) + Backfill(placeholder, k + 1, n)))
      else Build(k + 1, [], Threw(v.t))
  }

  /** The builders' loop over `0 <= i < n`. */
  method BuildTable<T>(n: int, lookup: int -> Call<T>, onMissing: Option<Notice>, placeholder: int -> T)
    returns (r: Build<T>)
    ensures r == Expected(n, lookup, onMissing, placeholder)
  {
    ghost var k := FirstHalt(lookup, onMissing, 0, n);
    var table: seq<T> := [];
    var effects: seq<Effect> := [];
    var failed := false;
    var queried: nat := 0;
    var i := 0;
    while i < n
      invariant 0 <= i && (i <= n || i == 0)
      invariant !failed ==> i <= k && queried == i && effects == [] && table == Real(lookup, onMissing, i)
      invariant failed ==>
        && k < i && Classify(lookup(k), onMissing).Degrade? && queried == k + 1
        && effects == [Notify(Classify(lookup(k), onMissing).notice), StackTrace]
        && table == Real(lookup, onMissing, k) + Backfill(placeholder, k + 1, i)
      decreases n - i
    {
      if failed {
        table := table + [placeholder(i)];
        i := i + 1;
        continue;
      }
      queried := queried + 1;
      var v := Classify(lookup(i), onMissing);
      match v {
        case Keep(x) =>
          table := table + [x];
        case Skip =>
        case Degrade(notice) =>
          failed := true;
          effects := [Notify(notice), StackTrace];
        case Rethrow(t) =>
          return Build(queried, effects, Threw(t));
      }
      i := i + 1;
    }
    r := Build(queried, effects, Ok(table));
  }

  /** When every lookup answers, the table has one entry per op code, each the
      lookup's answer. */
  lemma {:induction false} RealWhenAllAnswer<T>(lookup: int -> Call<T>, onMissing: Option<Notice>, n: int)
    requires forall j :: 0 <= j < n ==> lookup(j).Ok?
    ensures |Real(lookup, onMissing, n)| == if n < 0 then 0 else n
    ensures forall j :: 0 <= j < n ==> Real(lookup, onMissing, n)[j] == lookup(j).value
    decreases n
  {
    if n > 0 {
      RealWhenAllAnswer(lookup, onMissing, n - 1);
    }
  }

  /** No fault: the table is exactly the lookups' answers, `n` of them. */
  lemma NoFaultFullTable<T>(lookup: int -> Call<T>, onMissing: Option<Notice>, n: int)
    requires forall j :: 0 <= j < n ==> lookup(j).Ok?
    ensures FirstHalt(lookup, onMissing, 0, n) >= n
    ensures |Real(lookup, onMissing, n)| == if n < 0 then 0 else n
    ensures forall j :: 0 <= j < n ==> Real(lookup, onMissing, n)[j] == lookup(j).value
  {
    RealWhenAllAnswer(lookup, onMissing, n);
  }

  /** One degrading fault at `k` after `k` answered lookups: the table is one shorter
      than the op count, keeps the real answers before `k`, and from position `k` on
      holds the placeholder of the NEXT index (`k` itself contributes nothing). */
  lemma SingleFaultShape<T>(lookup: int -> Call<T>, onMissing: Option<Notice>, placeholder: int -> T, k: int, n: int)
    requires 0 <= k < n
    requires forall j :: 0 <= j < k ==> lookup(j).Ok?
    requires Classify(lookup(k), onMissing).Degrade?
    ensures FirstHalt(lookup, onMissing, 0, n) == k
    ensures var t := Real(lookup, onMissing, k) + Backfill(placeholder, k + 1, n);
      && |t| == n - 1
      && (forall j :: 0 <= j < k ==> t[j] == lookup(j).value)
      && (forall j :: k <= j < n - 1 ==> t[j] == placeholder(j + 1))
  {
    RealWhenAllAnswer(lookup, onMissing, k);
  }

  /** A build sends at most one notice and makes at most `n` lookups; a build that
      completes after fewer lookups has sent its one notice, and one that throws has
      sent none. */
  lemma AtMostOneNoticePerBuild<T>(n: int, lookup: int -> Call<T>, onMissing: Option<Notice>, placeholder: int -> T)
    ensures var b := Expected(n, lookup, onMissing, placeholder);
      && |Notices(b.effects)| <= 1
      && b.queried <= (if n < 0 then 0 else n)
      && (b.out.Ok? && b.queried < n ==> |Notices(b.effects)| == 1)
      && (b.out.Threw? ==> b.effects == [])
  {
    var k := FirstHalt(lookup, onMissing, 0, n);
    if k < n && Classify(lookup(k), onMissing).Degrade? {
      var e := [Notify(Classify(lookup(k), onMissing).notice), StackTrace];
      assert e[1..] == [StackTrace];
      assert e[1..][1..] == [];
    }
  }

  /** A `NoSuchMethodError` that the builder does not catch escapes at once, after
      the lookups up to its index; one it catches degrades the build with its own
      notice. */
  lemma MissingMethod<T>(n: int, lookup: int -> Call<T>, onMissing: Option<Notice>, placeholder: int -> T, k: int)
    requires 0 <= k < n
    requires forall j :: 0 <= j < k ==> lookup(j).Ok?
    requires lookup(k) == Threw(HiddenApisError(NoSuchMethodError))
    ensures var b := Expected(n, lookup, onMissing, placeholder);
      && b.queried == k + 1
      && (onMissing.None? ==> b.effects == [] && b.out == Threw(HiddenApisError(NoSuchMethodError)))
      && (onMissing.Some? ==> b.effects == [Notify(onMissing.value), StackTrace] && b.out.Ok? && |b.out.value| == n - 1)
  {
    RealWhenAllAnswer(lookup, onMissing, k);
  }
}
