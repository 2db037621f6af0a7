/** The task and string utilities (src/lib/utils.ts): priority weights, the
    two copy-then-sort functions, truncation, `slugify` and the e-mail
    pattern. Every function here is pure: the sorts return a new sequence
    and cannot touch their input. */
module Utils {
  import opened Wrappers
  import opened Seqs
  import opened JsString
  import opened Types

  // ---------------------------------------------------------------------
  // Priority weights

  /** `getPriorityWeight`: High 3, Medium 2, Low 1, any other string 0. */
  function PriorityWeight(p: string): (w: int)
    ensures 0 <= w <= 3
    ensures w == 3 <==> p == "High"
    ensures w == 2 <==> p == "Medium"
    ensures w == 1 <==> p == "Low"
  {
    if p == "High" then 3 else if p == "Medium" then 2 else if p == "Low" then 1 else 0
  }

  /** The weights order the three priorities Low < Medium < High, and each
      priority's weight is positive. */
  lemma WeightsOrderPriorities()
    ensures forall p: TaskPriority :: PriorityWeight(p.Name()) > 0
    ensures forall p: TaskPriority, q: TaskPriority ::
      PriorityWeight(p.Name()) == PriorityWeight(q.Name()) <==> p == q
    ensures PriorityWeight(Low.Name()) < PriorityWeight(Medium.Name()) < PriorityWeight(High.Name())
  {
    forall p: TaskPriority, q: TaskPriority
      ensures PriorityWeight(p.Name()) == PriorityWeight(q.Name()) <==> p == q
    {
      match p
      case Low => {}
      case Medium => {}
      case High => {}
    }
  }

  // The source looks the string up in an object literal and falls back to 0
  // with `||`. A JavaScript property lookup also finds the members every
  // object inherits from `Object.prototype`, so some strings reach a value
  // that is not one of the three weights.

  /** A JavaScript value, as far as the weight lookup can produce one. */
  datatype JsValue = Num(n: int) | Func(name: string) | Obj | Undefined

  /** The names every plain object inherits from `Object.prototype`. */
  const InheritedMethods: seq<string> := [
    "constructor", "hasOwnProperty", "isPrototypeOf", "propertyIsEnumerable",
    "toLocaleString", "toString", "valueOf", "__defineGetter__",
    "__defineSetter__", "__lookupGetter__", "__lookupSetter__"]

  /** `weights[p]` for `weights = { High: 3, Medium: 2, Low: 1 }`. */
  function WeightsLookup(p: string): JsValue {
    if p == "High" then Num(3)
    else if p == "Medium" then Num(2)
    else if p == "Low" then Num(1)
    else if p == "__proto__" then Obj
    else if p in InheritedMethods then Func(p)
    else Undefined
  }

  predicate Truthy(v: JsValue) {
    match v
    case Num(n) => n != 0
    case Func(_) => true
    case Obj => true
    case Undefined => false
  }

  /** `weights[p] || 0`, as written. */
  function PriorityWeightAsWritten(p: string): (v: JsValue)
    ensures v.Num? ==> v.n == PriorityWeight(p)
  {
    var v := WeightsLookup(p);
    if Truthy(v) then v else Num(0)
  }

  /** As written, the weight of "constructor" is the `Object` constructor
      function rather than the number 0. */
  lemma ConstructorWeightIsFunction()
    ensures PriorityWeightAsWritten("constructor") == Func("constructor")
    ensures !PriorityWeightAsWritten("constructor").Num?
  {
    assert InheritedMethods[0] == "constructor";
  }

  /** As written and corrected agree on every string that names no inherited
      member, in particular on the three priority names. */
  lemma WeightAsWrittenAgrees(p: string)
    requires p != "__proto__" && p !in InheritedMethods
    ensures PriorityWeightAsWritten(p) == Num(PriorityWeight(p))
  {
    assert "High" !in InheritedMethods && "Medium" !in InheritedMethods && "Low" !in InheritedMethods;
  }

  // ---------------------------------------------------------------------
  // Stable sorting

  /** A sort key, ordered lexicographically. */
  datatype Rank = Rank(major: int, minor: int)

  predicate RankLe(a: Rank, b: Rank) {
    a.major < b.major || (a.major == b.major && a.minor <= b.minor)
  }

  /** The sign of a comparator result as `Array.prototype.sort` reads it,
      stated as the order of two ranks. */
  predicate SignAgrees(cmp: int, a: Rank, b: Rank) {
    && (cmp < 0 <==> RankLe(a, b) && a != b)
    && (cmp == 0 <==> a == b)
    && (cmp > 0 <==> RankLe(b, a) && a != b)
  }

  predicate SortedBy<T>(s: seq<T>, rank: T -> Rank) {
    forall i, j :: 0 <= i < j < |s| ==> RankLe(rank(s[i]), rank(s[j]))
  }

  /** `x` inserted before the first element of `s` it does not exceed. */
  function Insert<T>(x: T, s: seq<T>, rank: T -> Rank): (r: seq<T>)
    ensures |r| == |s| + 1
    ensures multiset(r) == multiset(s) + multiset{x}
  {
    if s == [] then [x]
    else if RankLe(rank(x), rank(s[0])) then [x] + s
    else
      assert s == [s[0]] + s[1..];
      [s[0]] + Insert(x, s[1..], rank)
  }

  /** Inserting into a sorted sequence keeps it sorted. */
  lemma {:induction false} InsertSorted<T>(x: T, s: seq<T>, rank: T -> Rank)
    requires SortedBy(s, rank)
    ensures Insert(x, s, rank)[0] == x || (s != [] && Insert(x, s, rank)[0] == s[0])
    ensures SortedBy(Insert(x, s, rank), rank)
  {
    if s != [] && !RankLe(rank(x), rank(s[0])) {
      var tail := s[1..];
      assert SortedBy(tail, rank) by {
        assert forall i :: 0 <= i < |tail| ==> tail[i] == s[i + 1];
      }
      InsertSorted(x, tail, rank);
      var rest := Insert(x, tail, rank);
      assert RankLe(rank(s[0]), rank(rest[0]));
      assert Insert(x, s, rank) == [s[0]] + rest;
    }
  }

  /** A stable sort by `rank`: insertion from the back, each element placed
      before the equal-ranked elements that follow it in the input. */
  function SortBy<T>(s: seq<T>, rank: T -> Rank): (r: seq<T>)
    ensures SortedBy(r, rank)
    ensures multiset(r) == multiset(s)
  {
    if s == [] then []
    else
      assert s == [s[0]] + s[1..];
      InsertSorted(s[0], SortBy(s[1..], rank), rank);
      Insert(s[0], SortBy(s[1..], rank), rank)
  }

  lemma {:induction false} InsertStable<T>(x: T, s: seq<T>, rank: T -> Rank, q: T -> bool, k: Rank)
    requires forall y: T :: q(y) ==> rank(y) == k
    ensures Filter(Insert(x, s, rank), q) == (if q(x) then [x] else []) + Filter(s, q)
    decreases |s|, 1
  {
    if s == [] {
      FilterCons(x, [], q);
    } else if RankLe(rank(x), rank(s[0])) {
      FilterCons(x, s, q);
    } else {
      InsertStableStep(x, s, rank, q, k);
    }
  }

  /** The case where `x` goes past the head of `s`. */
  lemma {:induction false} InsertStableStep<T>(x: T, s: seq<T>, rank: T -> Rank, q: T -> bool, k: Rank)
    requires s != [] && !RankLe(rank(x), rank(s[0]))
    requires forall y: T :: q(y) ==> rank(y) == k
    ensures Filter(Insert(x, s, rank), q) == (if q(x) then [x] else []) + Filter(s, q)
    decreases |s|, 0
  {
    var head, tail := s[0], s[1..];
    var rest := Insert(x, tail, rank);
    InsertStable(x, tail, rank, q, k);
    assert Insert(x, s, rank) == [head] + rest;
    FilterCons(head, rest, q);
    assert s == [head] + tail;
    FilterCons(head, tail, q);
    var mine, first := (if q(x) then [x] else []), (if q(head) then [head] else []);
    var fi, fs, ft := Filter(Insert(x, s, rank), q), Filter(s, q), Filter(tail, q);
    assert fi == first + (mine + ft);
    assert fs == first + ft;
    // q cannot hold of both: x and the head have different ranks.
    if q(x) {
      assert first == [];
      EmptyConcat(mine + ft);
      EmptyConcat(ft);
    } else {
      assert mine == [];
      EmptyConcat(ft);
      EmptyConcat(fs);
    }
  }

  /** Stability: elements picked out by a predicate that holds within one
      rank only keep their input order. */
  lemma {:induction false} SortByStable<T>(s: seq<T>, rank: T -> Rank, q: T -> bool, k: Rank)
    requires forall y: T :: q(y) ==> rank(y) == k
    ensures Filter(SortBy(s, rank), q) == Filter(s, q)
  {
    if s != [] {
      SortByStable(s[1..], rank, q, k);
      InsertStable(s[0], SortBy(s[1..], rank), rank, q, k);
    }
  }

  // ---------------------------------------------------------------------
  // sortTasksByPriority

  // Both sorts are generic in the source: they accept any record with a
  // `priority` string or an optional `dueDate` string. Here the field is an
  // accessor passed in with the records.

  /** Heavier priorities first; within one weight the rank is equal. */
  function PriorityRank<T>(priority: T -> string): T -> Rank {
    t => Rank(-PriorityWeight(priority(t)), 0)
  }

  /** The comparator of `sortTasksByPriority`, as written. */
  function PriorityCompare<T>(a: T, b: T, priority: T -> string): (c: int)
    ensures c < 0 <==> PriorityWeight(priority(a)) > PriorityWeight(priority(b))
    ensures c == 0 <==> PriorityWeight(priority(a)) == PriorityWeight(priority(b))
  {
    PriorityWeight(priority(b)) - PriorityWeight(priority(a))
  }

  /** The comparator orders two records exactly as their ranks do. */
  lemma PriorityCompareAgrees<T>(a: T, b: T, priority: T -> string)
    ensures SignAgrees(PriorityCompare(a, b, priority), PriorityRank(priority)(a), PriorityRank(priority)(b))
  {
  }

  /** `sortTasksByPriority`: a permutation of the records, heaviest first;
      a record whose priority is none of the three names weighs 0 and so
      comes after every record that has one. */
  function SortTasksByPriority<T>(ts: seq<T>, priority: T -> string): (r: seq<T>)
    ensures multiset(r) == multiset(ts)
    ensures forall i, j :: 0 <= i < j < |r| ==>
      PriorityWeight(priority(r[i])) >= PriorityWeight(priority(r[j]))
  {
    var rank := PriorityRank(priority);
    var r := SortBy(ts, rank);
    assert forall i, j :: 0 <= i < j < |r| ==> RankLe(rank(r[i]), rank(r[j]));
    r
  }

  /** Records of one weight keep their input order, and so do the records
      with one priority string. */
  lemma SortTasksByPriorityStable<T>(ts: seq<T>, priority: T -> string, w: int, p: string)
    ensures Filter(SortTasksByPriority(ts, priority), (t: T) => PriorityWeight(priority(t)) == w)
         == Filter(ts, (t: T) => PriorityWeight(priority(t)) == w)
    ensures Filter(SortTasksByPriority(ts, priority), (t: T) => priority(t) == p)
         == Filter(ts, (t: T) => priority(t) == p)
  {
    SortByStable(ts, PriorityRank(priority), (t: T) => PriorityWeight(priority(t)) == w, Rank(-w, 0));
    SortByStable(ts, PriorityRank(priority), (t: T) => priority(t) == p, Rank(-PriorityWeight(p), 0));
  }

  /** The board's tasks carry one of the three enum priorities. */
  function TaskPriorityName(t: Task): string {
    t.priority.Name()
  }

  /** On the board's tasks the sort gives all High tasks, then all Medium,
      then all Low. */
  lemma SortTasksByPriorityGroups(ts: seq<Task>)
    ensures var r := SortTasksByPriority(ts, TaskPriorityName);
      forall i, j :: 0 <= i < j < |r| ==>
        && (r[j].priority == High ==> r[i].priority == High)
        && (r[i].priority == Low ==> r[j].priority == Low)
  {
    WeightsOrderPriorities();
    var r := SortTasksByPriority(ts, TaskPriorityName);
    forall i, j | 0 <= i < j < |r|
      ensures r[j].priority == High ==> r[i].priority == High
      ensures r[i].priority == Low ==> r[j].priority == Low
    {
      assert PriorityWeight(TaskPriorityName(r[i])) >= PriorityWeight(TaskPriorityName(r[j]));
    }
  }

  // ---------------------------------------------------------------------
  // sortTasksByDueDate

  /** `!!dueDate`: present and not the empty string. */
  predicate IsDated(d: Option<string>) {
    d.Some? && d.value != ""
  }

  /** Dated records by their time, then all undated records. `time` stands
      for `new Date(d).getTime()`. */
  function DueRank<T>(dueDate: T -> Option<string>, time: string -> int): T -> Rank {
    t => if IsDated(dueDate(t)) then Rank(0, time(dueDate(t).value)) else Rank(1, 0)
  }

  /** The comparator of `sortTasksByDueDate`, as written. */
  function DueDateCompare<T>(a: T, b: T, dueDate: T -> Option<string>, time: string -> int): (c: int)
    ensures c < 0 <==> IsDated(dueDate(a)) && (!IsDated(dueDate(b)) || time(dueDate(a).value) < time(dueDate(b).value))
    ensures c == 0 <==> ((!IsDated(dueDate(a)) && !IsDated(dueDate(b)))
                      || (IsDated(dueDate(a)) && IsDated(dueDate(b)) && time(dueDate(a).value) == time(dueDate(b).value)))
  {
    if !IsDated(dueDate(a)) && !IsDated(dueDate(b)) then 0
    else if !IsDated(dueDate(a)) then 1
    else if !IsDated(dueDate(b)) then -1
    else time(dueDate(a).value) - time(dueDate(b).value)
  }

  lemma DueDateCompareAgrees<T>(a: T, b: T, dueDate: T -> Option<string>, time: string -> int)
    ensures SignAgrees(DueDateCompare(a, b, dueDate, time), DueRank(dueDate, time)(a), DueRank(dueDate, time)(b))
  {
  }

  /** `sortTasksByDueDate`: a permutation in which the dated records come
      first, by non-decreasing time, and the undated ones last. */
  function SortTasksByDueDate<T>(ts: seq<T>, dueDate: T -> Option<string>, time: string -> int): (r: seq<T>)
    ensures multiset(r) == multiset(ts)
    ensures forall i, j :: 0 <= i < j < |r| && IsDated(dueDate(r[j])) ==> IsDated(dueDate(r[i]))
    ensures forall i, j :: 0 <= i < j < |r| && IsDated(dueDate(r[i])) && IsDated(dueDate(r[j])) ==>
      time(dueDate(r[i]).value) <= time(dueDate(r[j]).value)
  {
    var rank := DueRank(dueDate, time);
    var r := SortBy(ts, rank);
    assert forall i, j :: 0 <= i < j < |r| ==> RankLe(rank(r[i]), rank(r[j]));
    r
  }

  /** The undated records keep their input order, and so do the dated
      records that share one time. */
  lemma SortTasksByDueDateStable<T>(ts: seq<T>, dueDate: T -> Option<string>, time: string -> int, d: int)
    ensures Filter(SortTasksByDueDate(ts, dueDate, time), (t: T) => !IsDated(dueDate(t)))
         == Filter(ts, (t: T) => !IsDated(dueDate(t)))
    ensures Filter(SortTasksByDueDate(ts, dueDate, time), (t: T) => IsDated(dueDate(t)) && time(dueDate(t).value) == d)
         == Filter(ts, (t: T) => IsDated(dueDate(t)) && time(dueDate(t).value) == d)
  {
    SortByStable(ts, DueRank(dueDate, time), (t: T) => !IsDated(dueDate(t)), Rank(1, 0));
    SortByStable(ts, DueRank(dueDate, time), (t: T) => IsDated(dueDate(t)) && time(dueDate(t).value) == d, Rank(0, d));
  }

  // ---------------------------------------------------------------------
  // truncateString

  const DefaultMaxLength: int := 100

  /** `truncateString(s, maxLength)`: `s` when it fits, otherwise its first
      `maxLength` characters and "..."; `substring` clamps a negative length
      to 0. */
  function TruncateString(s: string, maxLength: int := DefaultMaxLength): (r: string)
    ensures |s| <= maxLength ==> r == s
    ensures |s| > maxLength ==>
      && |r| == (if maxLength < 0 then 0 else maxLength) + 3
      && r[..|r| - 3] <= s
      && r[|r| - 3..] == "..."
  {
    if |s| <= maxLength then s
    else s[..if maxLength < 0 then 0 else maxLength] + "..."
  }

  /** Truncating twice with one bound is truncating once, and the result
      never exceeds the bound by more than three characters. */
  lemma TruncateIdempotent(s: string, maxLength: int)
    ensures TruncateString(TruncateString(s, maxLength), maxLength) == TruncateString(s, maxLength)
    ensures maxLength >= 0 ==> |TruncateString(s, maxLength)| <= maxLength + 3
  {
    var r := TruncateString(s, maxLength);
    if |s| > maxLength {
      var m := if maxLength < 0 then 0 else maxLength;
      assert r[..m] == s[..m];
    }
  }

  // ---------------------------------------------------------------------
  // slugify

  /** The characters `[^a-z0-9 -]` does not remove. */
  predicate IsKeptChar(c: char) {
    ('a' <= c <= 'z') || ('0' <= c <= '9') || c == ' ' || c == '-'
  }

  /** The characters a slug consists of. */
  predicate IsSlugChar(c: char) {
    ('a' <= c <= 'z') || ('0' <= c <= '9') || c == '-'
  }

  /** `s` with its leading run of `p`-characters removed. */
  function SkipRun(s: string, p: char -> bool): (r: string)
    ensures |r| <= |s| && r == s[|s| - |r|..]
    ensures r == [] || !p(r[0])
  {
    if s != [] && p(s[0]) then SkipRun(s[1..], p) else s
  }

  /** `s.replace(/P+/g, rep)`: every maximal run of `p`-characters becomes
      the single character `rep`. */
  function CollapseRuns(s: string, p: char -> bool, rep: char): (r: string)
    ensures |r| <= |s|
    ensures s == [] <==> r == []
    ensures s != [] && p(s[0]) ==> r[0] == rep
    ensures s != [] && !p(s[0]) ==> r[0] == s[0]
    decreases |s|
  {
    if s == [] then []
    else if p(s[0]) then [rep] + CollapseRuns(SkipRun(s[1..], p), p, rep)
    else [s[0]] + CollapseRuns(s[1..], p, rep)
  }

  /** No two neighbouring characters both satisfy `p`. */
  predicate NoDoubled(s: string, p: char -> bool) {
    forall i :: 0 <= i < |s| - 1 ==> !(p(s[i]) && p(s[i + 1]))
  }

  /** When `rep` is itself a `p`-character, the result has no two
      neighbouring `p`-characters. */
  lemma {:induction false} CollapseNoDoubled(s: string, p: char -> bool, rep: char)
    requires p(rep)
    ensures NoDoubled(CollapseRuns(s, p, rep), p)
    decreases |s|
  {
    if s != [] {
      var r := CollapseRuns(s, p, rep);
      if p(s[0]) {
        var rest := SkipRun(s[1..], p);
        CollapseNoDoubled(rest, p, rep);
        assert r[1..] == CollapseRuns(rest, p, rep);
      } else {
        CollapseNoDoubled(s[1..], p, rep);
        assert r[1..] == CollapseRuns(s[1..], p, rep);
      }
    }
  }

  /** Every character of the result is `rep` or a character of `s` that is
      not a `p`-character; so any property `q` of those characters holds of
      the result. */
  lemma {:induction false} CollapseKeeps(s: string, p: char -> bool, rep: char, q: char -> bool)
    requires q(rep)
    requires forall i :: 0 <= i < |s| ==> p(s[i]) || q(s[i])
    ensures forall i :: 0 <= i < |CollapseRuns(s, p, rep)| ==> q(CollapseRuns(s, p, rep)[i])
    decreases |s|
  {
    if s != [] {
      var r := CollapseRuns(s, p, rep);
      if p(s[0]) {
        var rest := SkipRun(s[1..], p);
        assert forall i :: 0 <= i < |rest| ==> rest[i] == s[|s| - |rest| + i];
        CollapseKeeps(rest, p, rep, q);
        assert r[1..] == CollapseRuns(rest, p, rep);
      } else {
        assert forall i :: 0 <= i < |s[1..]| ==> s[1..][i] == s[i + 1];
        CollapseKeeps(s[1..], p, rep, q);
        assert r[1..] == CollapseRuns(s[1..], p, rep);
      }
      forall i | 0 <= i < |r| ensures q(r[i]) {
        if i > 0 {
          assert r[i] == r[1..][i - 1];
        }
      }
    }
  }

  /** A string with no `p`-character is left alone. */
  lemma {:induction false} CollapseNone(s: string, p: char -> bool, rep: char)
    requires forall i :: 0 <= i < |s| ==> !p(s[i])
    ensures CollapseRuns(s, p, rep) == s
    decreases |s|
  {
    if s != [] {
      assert forall i :: 0 <= i < |s[1..]| ==> s[1..][i] == s[i + 1];
      CollapseNone(s[1..], p, rep);
    }
  }

  /** A string whose `p`-characters are all `rep` and never neighbours is left
      alone. */
  lemma {:induction false} CollapseSingles(s: string, p: char -> bool, rep: char)
    requires forall i :: 0 <= i < |s| && p(s[i]) ==> s[i] == rep
    requires NoDoubled(s, p)
    ensures CollapseRuns(s, p, rep) == s
    decreases |s|
  {
    if s != [] {
      assert forall i :: 0 <= i < |s[1..]| ==> s[1..][i] == s[i + 1];
      if p(s[0]) {
        assert SkipRun(s[1..], p) == s[1..];
      }
      CollapseSingles(s[1..], p, rep);
    }
  }

  /** The four replacement steps of `slugify`, before the final `trim`. */
  function SlugSteps(s: string): string {
    var hyphenated := CollapseRuns(Filter(Lower(s), IsKeptChar), IsWhitespace, '-');
    CollapseRuns(hyphenated, c => c == '-', '-')
  }

  /** The steps leave slug characters only and never two '-' in a row. */
  lemma SlugStepsShape(s: string)
    ensures forall i :: 0 <= i < |SlugSteps(s)| ==> IsSlugChar(SlugSteps(s)[i])
    ensures NoDoubled(SlugSteps(s), c => c == '-')
  {
    var kept := Filter(Lower(s), IsKeptChar);
    var hyphenated := CollapseRuns(kept, IsWhitespace, '-');
    CollapseKeeps(kept, IsWhitespace, '-', IsSlugChar);
    CollapseKeeps(hyphenated, c => c == '-', '-', IsSlugChar);
    CollapseNoDoubled(hyphenated, c => c == '-', '-');
  }

  /** `slugify`: lower-case, drop everything but letters, digits, spaces and
      '-', turn whitespace runs into '-', merge '-' runs, trim. */
  function Slugify(s: string): (r: string)
    ensures forall i :: 0 <= i < |r| ==> IsSlugChar(r[i])
    ensures forall i :: 0 <= i < |r| - 1 ==> !(r[i] == '-' && r[i + 1] == '-')
  {
    SlugStepsShape(s);
    TrimOfNoWhitespace(SlugSteps(s));
    Trim(SlugSteps(s))
  }

  /** The final `trim` never changes anything: no whitespace is left, so a
      leading or trailing space has become '-'. */
  lemma SlugifyTrimIsNoop(s: string)
    ensures Slugify(s) == SlugSteps(s)
  {
    SlugStepsShape(s);
    TrimOfNoWhitespace(SlugSteps(s));
  }

  /** A string of slug characters without a doubled '-' passes the four
      steps unchanged. */
  lemma SlugStepsKeepSlug(u: string)
    requires forall i :: 0 <= i < |u| ==> IsSlugChar(u[i])
    requires NoDoubled(u, c => c == '-')
    ensures SlugSteps(u) == u
  {
    assert Lower(u) == u;
    FilterAll(u, IsKeptChar);
    assert forall i :: 0 <= i < |u| ==> !IsWhitespace(u[i]) by {
      forall i | 0 <= i < |u| ensures !IsWhitespace(u[i]) {
        assert IsSlugChar(u[i]);
      }
    }
    CollapseNone(u, IsWhitespace, '-');
    CollapseSingles(u, c => c == '-', '-');
  }

  /** A slug is its own slug. */
  lemma SlugifyIdempotent(s: string)
    ensures Slugify(Slugify(s)) == Slugify(s)
  {
    var u := SlugSteps(s);
    SlugifyTrimIsNoop(s);
    SlugStepsShape(s);
    SlugStepsKeepSlug(u);
    SlugifyTrimIsNoop(u);
  }

  // ---------------------------------------------------------------------
  // isValidEmail

  /** `[^\s@]+`: non-empty, no whitespace and no '@'. */
  predicate EmailPart(s: string) {
    |s| > 0 && forall k :: 0 <= k < |s| ==> !IsWhitespace(s[k]) && s[k] != '@'
  }

  /** `/^[^\s@]+@[^\s@]+\.[^\s@]+$/.test(s)`: `s` splits as part '@' part
      '.' part. */
  predicate IsValidEmail(s: string): (b: bool)
    ensures b ==> 5 <= |s| && s[0] != '@' && s[|s| - 1] != '@' && !IsWhitespace(s[0])
  {
    exists i, j :: 0 <= i < j < |s| && s[i] == '@' && s[j] == '.'
      && EmailPart(s[..i]) && EmailPart(s[i + 1..j]) && EmailPart(s[j + 1..])
  }

  /** The address read structurally: no whitespace, one '@' with something
      before it, and a '.' in the domain that is neither its first nor its
      last character. */
  predicate EmailShape(s: string) {
    && NoWhitespace(s)
    && exists i :: 0 < i < |s| && s[i] == '@' && OnlyAtAt(s, i) && DomainHasInnerDot(s, i)
  }

  predicate OnlyAtAt(s: string, i: nat) {
    forall k :: 0 <= k < |s| && s[k] == '@' ==> k == i
  }

  predicate DomainHasInnerDot(s: string, i: nat) {
    exists j :: i + 1 < j < |s| - 1 && s[j] == '.'
  }

  lemma EmailRegexIsShape(s: string)
    ensures IsValidEmail(s) <==> EmailShape(s)
  {
    if IsValidEmail(s) {
      var i, j :| 0 <= i < j < |s| && s[i] == '@' && s[j] == '.'
        && EmailPart(s[..i]) && EmailPart(s[i + 1..j]) && EmailPart(s[j + 1..]);
      forall k | 0 <= k < |s| ensures !IsWhitespace(s[k]) && (s[k] == '@' ==> k == i) {
        if k < i {
          assert s[..i][k] == s[k];
        } else if i < k < j {
          assert s[i + 1..j][k - i - 1] == s[k];
        } else if j < k {
          assert s[j + 1..][k - j - 1] == s[k];
        }
      }
      assert OnlyAtAt(s, i);
      assert DomainHasInnerDot(s, i);
    }
    if EmailShape(s) {
      var i :| 0 < i < |s| && s[i] == '@' && OnlyAtAt(s, i) && DomainHasInnerDot(s, i);
      var j :| i + 1 < j < |s| - 1 && s[j] == '.';
      assert EmailPart(s[..i]);
      assert EmailPart(s[i + 1..j]);
      assert EmailPart(s[j + 1..]);
    }
  }
}
