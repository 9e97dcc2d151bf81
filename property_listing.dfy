/** The query builder of `getAllProperties`: a fixed SELECT, then up to five
    optional filters in a fixed order, each pushing one bind parameter and
    appending a clause whose `$k` placeholder is the parameter list's length
    just after the push; then GROUP BY, the optional HAVING, ORDER BY and a
    LIMIT whose value is always pushed last. */
module PropertyListing {
  import opened JsRuntime

  /** The five filter options, in the order the builder tests them. */
  datatype Filter = City | Owner | MinPrice | MaxPrice | MinRating

  /** The options object; a property the caller did not set is `Undefined`. */
  datatype Options = Options(
    city: JsValue,
    owner_id: JsValue,
    minimum_price_per_night: JsValue,
    maximum_price_per_night: JsValue,
    minimum_rating: JsValue)

  /** A fragment appended to the query after the fixed SELECT.
      `Cond` and `Limit` carry the number of their `$k` placeholder. */
  datatype Clause =
    | Cond(filter: Filter, idx: nat)
    | GroupBy
    | OrderBy
    | Limit(idx: nat)

  /** SQL comparison operators used by the filters. */
  datatype CmpOp = Like | Eq | Ge | Le

  function OptionFor(o: Options, f: Filter): JsValue {
    match f
    case City => o.city
    case Owner => o.owner_id
    case MinPrice => o.minimum_price_per_night
    case MaxPrice => o.maximum_price_per_night
    case MinRating => o.minimum_rating
  }

  /** The bind parameter for the city filter: the option's text between two `%`
      wildcards, with its characters (and their case) unchanged. */
  function CityPattern(city: JsValue): (p: JsValue)
    ensures p.Str? && |p.s| == |ToText(city)| + 2
    ensures p.s[0] == '%' && p.s[|p.s| - 1] == '%'
    ensures p.s[1..|p.s| - 1] == ToText(city)
  {
    Str("%" + ToText(city) + "%")
  }

  // ---------------------------------------------------------------------------
  // What a built query means: placeholders, bindings, filters, order

  function PlaceholderOf(c: Clause): seq<nat> {
    match c
    case Cond(_, k) => [k]
    case Limit(k) => [k]
    case _ => []
  }

  /** The placeholder numbers of a clause sequence, in textual order. */
  function Placeholders(cs: seq<Clause>): seq<nat> {
    if cs == [] then [] else Placeholders(cs[..|cs| - 1]) + PlaceholderOf(cs[|cs| - 1])
  }

  /** The sequence `[1, 2, ..., n]`. */
  function OneTo(n: nat): seq<nat> {
    if n == 0 then [] else OneTo(n - 1) + [n]
  }

  /** Placeholders are exactly `$1, $2, ..., $n` in order, one per bind parameter. */
  predicate WellNumbered(cs: seq<Clause>, params: seq<JsValue>) {
    Placeholders(cs) == OneTo(|params|)
  }

  /** The value a clause's placeholder is meant to stand for. */
  function Intended(c: Clause, o: Options, limit: JsValue): JsValue {
    match c
    case Cond(City, _) => CityPattern(o.city)
    case Cond(f, _) => OptionFor(o, f)
    case Limit(_) => limit
    case _ => Undefined
  }

  /** Every placeholder `$k` refers to `params[k-1]`, and that parameter is the
      value its clause is meant to test against. */
  predicate BindsIntended(cs: seq<Clause>, params: seq<JsValue>, o: Options, limit: JsValue) {
    forall i :: 0 <= i < |cs| && (cs[i].Cond? || cs[i].Limit?) ==>
      1 <= cs[i].idx <= |params| && params[cs[i].idx - 1] == Intended(cs[i], o, limit)
  }

  /** The filters tested by a clause sequence, in textual order. */
  function FiltersOf(cs: seq<Clause>): seq<Filter> {
    if cs == [] then []
    else FiltersOf(cs[..|cs| - 1]) + (if cs[|cs| - 1].Cond? then [cs[|cs| - 1].filter] else [])
  }

  function FilterRank(f: Filter): nat {
    match f
    case City => 0
    case Owner => 1
    case MinPrice => 2
    case MaxPrice => 3
    case MinRating => 5
  }

  /** Position of each clause kind in the fixed clause order: the four WHERE
      filters, GROUP BY, the HAVING filter, ORDER BY, LIMIT. */
  function Rank(c: Clause): nat {
    match c
    case Cond(f, _) => FilterRank(f)
    case GroupBy => 4
    case OrderBy => 6
    case Limit(_) => 7
  }

  /** Clauses appear in the fixed order, each kind at most once. */
  predicate InFixedOrder(cs: seq<Clause>) {
    forall i, j :: 0 <= i < j < |cs| ==> Rank(cs[i]) < Rank(cs[j])
  }

  /** Each clause is ranked above the one before it. */
  predicate Ascending(cs: seq<Clause>) {
    |cs| <= 1 || (Ascending(cs[..|cs| - 1]) && Rank(cs[|cs| - 2]) < Rank(cs[|cs| - 1]))
  }

  /** A filter is applied after aggregation (HAVING) rather than before it (WHERE). */
  predicate IsHaving(f: Filter) {
    f == MinRating
  }

  // ---------------------------------------------------------------------------
  // Text of the query

  function Column(f: Filter): string {
    match f
    case City => "city"
    case Owner => "owner_id"
    case MinPrice => "cost_per_night/100"
    case MaxPrice => "cost_per_night/100"
    case MinRating => "avg(property_reviews.rating)"
  }

  function Op(f: Filter): CmpOp {
    match f
    case City => Like
    case Owner => Eq
    case MinPrice => Ge
    case MaxPrice => Le
    case MinRating => Ge
  }

  function OpText(op: CmpOp): string {
    match op
    case Like => "LIKE"
    case Eq => "="
    case Ge => ">="
    case Le => "<="
  }

  /** What a numeric comparison admits, for a column value `x` and a bound `b`. */
  predicate Admits(op: CmpOp, x: int, b: int)
    requires op != Like
  {
    match op
    case Ge => x >= b
    case Le => x <= b
    case Eq => x == b
  }

  const SelectHead: string :=
    "\n  SELECT properties.*, avg(property_reviews.rating) as average_rating\n  FROM properties\n  JOIN property_reviews ON properties.id = property_id\n  WHERE TRUE\n  "

  /** The fragment a clause appends: a filter starts with ` HAVING ` exactly
      when it is the rating filter and with ` AND ` otherwise. */
  function Render(c: Clause): string {
    match c
    case Cond(f, k) =>
      (if IsHaving(f) then " HAVING " else " AND ")
      + Column(f) + " " + OpText(Op(f)) + " $" + NatToText(k)
      + (if f == MinPrice || f == MaxPrice then "" else " ")
    case GroupBy => "\n   GROUP BY properties.id\n   "
    case OrderBy => "\n  ORDER BY cost_per_night"
    case Limit(k) => "\n  LIMIT $" + NatToText(k) + ";\n  "
  }

  /** Where in a clause's fragment its `$k` is written: a `$`, then the
      digits of `k`, which read back as `k` and are not followed by a digit. */
  function PlaceholderPos(c: Clause): (i: nat)
    requires c.Cond? || c.Limit?
    ensures var r, d := Render(c), NatToText(c.idx);
      && i + 1 + |d| <= |r| && r[i] == '$' && r[i + 1..i + 1 + |d|] == d
      && ParseDigits(r[i + 1..i + 1 + |d|]) == c.idx
      && (i + 1 + |d| == |r| || !IsDigit(r[i + 1 + |d|]))
  {
    ParseNatToText(c.idx);
    match c
    case Cond(f, k) =>
      var head := (if IsHaving(f) then " HAVING " else " AND ") + Column(f) + " " + OpText(Op(f)) + " $";
      var tail := if f == MinPrice || f == MaxPrice then "" else " ";
      DigitsBetween(head, NatToText(k), tail);
      |head| - 1
    case Limit(k) =>
      DigitsBetween("\n  LIMIT $", NatToText(k), ";\n  ");
      |"\n  LIMIT $"| - 1
  }

  /** In `head + d + tail`, with `head` ending in `$` and `tail` not starting
      with a digit, the digits `d` stand right after that `$`. */
  lemma DigitsBetween(head: string, d: string, tail: string)
    requires |head| > 0 && head[|head| - 1] == '$'
    requires tail == [] || !IsDigit(tail[0])
    ensures var r := head + d + tail;
      && r[|head| - 1] == '$' && r[|head|..|head| + |d|] == d
      && (|head| + |d| == |r| || !IsDigit(r[|head| + |d|]))
  {
    var r := head + d + tail;
    assert r[|head|..|head| + |d|] == d;
  }

  /** A filter's fragment opens with its connective: ` HAVING ` for the
      rating filter, ` AND ` for the others, and then names its column. */
  lemma RenderConnective(c: Clause)
    requires c.Cond?
    ensures IsHaving(c.filter) ==> " HAVING " <= Render(c)
    ensures !IsHaving(c.filter) ==> " AND " <= Render(c)
    ensures (if IsHaving(c.filter) then " HAVING " else " AND ") + Column(c.filter) <= Render(c)
  {
  }

  function RenderAll(cs: seq<Clause>): string {
    if cs == [] then "" else RenderAll(cs[..|cs| - 1]) + Render(cs[|cs| - 1])
  }

  /** The full query text for a clause sequence: the fixed SELECT, then the
      fragments of the clauses in order. */
  function QueryText(cs: seq<Clause>): string {
    SelectHead + RenderAll(cs)
  }

  /** Every query text starts with the fixed SELECT, and is just that when no
      clause was appended. */
  lemma QueryTextStartsWithSelect(cs: seq<Clause>)
    ensures SelectHead <= QueryText(cs)
    ensures cs == [] ==> QueryText(cs) == SelectHead
  {
  }

  // ---------------------------------------------------------------------------
  // Reference definition of the builder

  /** The steps of the builder, each at most one push and one appended clause. */
  datatype Step =
    | Test(f: Filter)   // `if (options.x) { queryParams.push(...); queryString += ... }`
    | GroupStep         // `queryString += GROUP BY ...`
    | OrderStep         // the ORDER BY half of the final `+=`
    | LimitStep         // `queryParams.push(limit)` and the LIMIT half of the final `+=`

  /** The four WHERE filter tests, in the order `getAllProperties` runs them. */
  const WhereSteps: seq<Step> := [Test(City), Test(Owner), Test(MinPrice), Test(MaxPrice)]

  /** The steps before the LIMIT step, in the order `getAllProperties` runs them. */
  const Prelude: seq<Step> := WhereSteps + [GroupStep] + [Test(MinRating)] + [OrderStep]

  /** All steps of `getAllProperties`, ending with the LIMIT step. */
  const Program: seq<Step> := Prelude + [LimitStep]

  /** The rank of the clause a step appends. */
  function StepRank(s: Step): nat {
    match s
    case Test(f) => FilterRank(f)
    case GroupStep => Rank(GroupBy)
    case OrderStep => Rank(OrderBy)
    case LimitStep => Rank(Limit(0))
  }

  /** Each step is ranked above every step before it. */
  predicate StepsAscending(steps: seq<Step>) {
    forall i, j :: 0 <= i < j < |steps| ==> StepRank(steps[i]) < StepRank(steps[j])
  }

  /** What the builder holds between two steps: the clauses appended after the
      fixed SELECT so far, and the bind parameters pushed so far. */
  datatype BuilderState = BuilderState(clauses: seq<Clause>, params: seq<JsValue>)

  /** One step: a filter test pushes its value and then appends a clause numbered
      with the new parameter count, only when the option is truthy; the last
      step pushes `limit` and appends `LIMIT $n` the same way. */
  function Apply(st: BuilderState, o: Options, limit: JsValue, s: Step): BuilderState {
    match s
    case Test(f) =>
      if Truthy(OptionFor(o, f)) then
        var c := Cond(f, |st.params| + 1);
        BuilderState(st.clauses + [c], st.params + [Intended(c, o, limit)])
      else st
    case GroupStep => BuilderState(st.clauses + [GroupBy], st.params)
    case OrderStep => BuilderState(st.clauses + [OrderBy], st.params)
    case LimitStep => BuilderState(st.clauses + [Limit(|st.params| + 1)], st.params + [limit])
  }

  /** The builder's state after running `steps` from an empty query. */
  function Run(o: Options, limit: JsValue, steps: seq<Step>): BuilderState {
    if steps == [] then BuilderState([], [])
    else Apply(Run(o, limit, steps[..|steps| - 1]), o, limit, steps[|steps| - 1])
  }

  /** The filters among `steps` whose option is truthy, in step order. */
  function TruthyTests(o: Options, steps: seq<Step>): seq<Filter> {
    if steps == [] then []
    else
      var s := steps[|steps| - 1];
      TruthyTests(o, steps[..|steps| - 1]) + (if s.Test? && Truthy(OptionFor(o, s.f)) then [s.f] else [])
  }

  /** All filters whose option is truthy, in the order the builder tests them. */
  function TruthyFilters(o: Options): seq<Filter> {
    TruthyTests(o, Program)
  }

  // ---------------------------------------------------------------------------
  // Appending one step or one clause

  lemma RunSnoc(o: Options, limit: JsValue, steps: seq<Step>, s: Step)
    ensures Run(o, limit, steps + [s]) == Apply(Run(o, limit, steps), o, limit, s)
    ensures TruthyTests(o, steps + [s])
         == TruthyTests(o, steps) + (if s.Test? && Truthy(OptionFor(o, s.f)) then [s.f] else [])
  {
    assert (steps + [s])[..|steps|] == steps;
  }

  /** Appending one clause appends its placeholder, if it has one. */
  lemma PlaceholdersSnoc(cs: seq<Clause>, c: Clause)
    ensures Placeholders(cs + [c]) == Placeholders(cs) + PlaceholderOf(c)
  {
    assert (cs + [c])[..|cs|] == cs;
  }

  /** Appending one clause appends its filter, if it has one. */
  lemma FiltersSnoc(cs: seq<Clause>, c: Clause)
    ensures FiltersOf(cs + [c]) == FiltersOf(cs) + (if c.Cond? then [c.filter] else [])
  {
    assert (cs + [c])[..|cs|] == cs;
  }

  /** Appending a clause ranked above the last keeps the ranks rising. */
  lemma AscendingSnoc(cs: seq<Clause>, c: Clause)
    requires Ascending(cs) && (cs == [] || Rank(cs[|cs| - 1]) < Rank(c))
    ensures Ascending(cs + [c])
  {
    assert (cs + [c])[..|cs|] == cs;
  }

  /** Appending one clause appends its text. */
  lemma RenderSnoc(cs: seq<Clause>, c: Clause)
    ensures QueryText(cs + [c]) == QueryText(cs) + Render(c)
  {
    assert (cs + [c])[..|cs|] == cs;
    AppendAssoc(SelectHead, RenderAll(cs), Render(c));
  }

  lemma AppendAssoc<T>(a: seq<T>, b: seq<T>, c: seq<T>)
    ensures a + (b + c) == (a + b) + c
  {
  }

  /** Pushing a clause's intended value and appending the clause numbered with
      the new parameter count keeps every placeholder bound as intended. */
  lemma PushKeepsBinding(cs: seq<Clause>, params: seq<JsValue>, c: Clause, o: Options, limit: JsValue)
    requires BindsIntended(cs, params, o, limit)
    requires (c.Cond? || c.Limit?) && c.idx == |params| + 1
    ensures BindsIntended(cs + [c], params + [Intended(c, o, limit)], o, limit)
  {
    var cs', params' := cs + [c], params + [Intended(c, o, limit)];
    forall i | 0 <= i < |cs'| && (cs'[i].Cond? || cs'[i].Limit?)
      ensures 1 <= cs'[i].idx <= |params'| && params'[cs'[i].idx - 1] == Intended(cs'[i], o, limit)
    {
      if i < |cs| {
        assert cs'[i] == cs[i];
      }
    }
  }

  /** Appending a clause without a placeholder leaves every binding as it was. */
  lemma AppendKeepsBinding(cs: seq<Clause>, params: seq<JsValue>, c: Clause, o: Options, limit: JsValue)
    requires BindsIntended(cs, params, o, limit)
    requires c == GroupBy || c == OrderBy
    ensures BindsIntended(cs + [c], params, o, limit)
  {
    var cs' := cs + [c];
    forall i | 0 <= i < |cs'| && (cs'[i].Cond? || cs'[i].Limit?)
      ensures 1 <= cs'[i].idx <= |params| && params[cs'[i].idx - 1] == Intended(cs'[i], o, limit)
    {
      assert cs'[i] == cs[i];
    }
  }

  // ---------------------------------------------------------------------------
  // What the steps keep, for any sequence of steps

  /** Pushing a value and appending a clause numbered with the new parameter
      count keeps the placeholders numbered `$1..$n`. */
  lemma PushKeepsNumbering(cs: seq<Clause>, params: seq<JsValue>, c: Clause, v: JsValue)
    requires WellNumbered(cs, params)
    requires (c.Cond? || c.Limit?) && c.idx == |params| + 1
    ensures WellNumbered(cs + [c], params + [v])
  {
    PlaceholdersSnoc(cs, c);
    assert |params + [v]| == |params| + 1;
    assert OneTo(|params| + 1) == OneTo(|params|) + [|params| + 1];
  }

  /** Appending a clause without a placeholder keeps the numbering. */
  lemma AppendKeepsNumbering(cs: seq<Clause>, params: seq<JsValue>, c: Clause)
    requires WellNumbered(cs, params)
    requires c == GroupBy || c == OrderBy
    ensures WellNumbered(cs + [c], params)
  {
    PlaceholdersSnoc(cs, c);
  }

  /** A step keeps the placeholders numbered `$1..$n`, `n` the parameter count. */
  lemma ApplyKeepsNumbering(st: BuilderState, o: Options, limit: JsValue, s: Step)
    requires WellNumbered(st.clauses, st.params)
    ensures WellNumbered(Apply(st, o, limit, s).clauses, Apply(st, o, limit, s).params)
  {
    var n := |st.params|;
    match s
    case Test(f) =>
      if Truthy(OptionFor(o, f)) {
        var c := Cond(f, n + 1);
        PushKeepsNumbering(st.clauses, st.params, c, Intended(c, o, limit));
      }
    case GroupStep =>
      AppendKeepsNumbering(st.clauses, st.params, GroupBy);
    case OrderStep =>
      AppendKeepsNumbering(st.clauses, st.params, OrderBy);
    case LimitStep =>
      PushKeepsNumbering(st.clauses, st.params, Limit(n + 1), limit);
  }

  /** Placeholders are numbered `$1..$n`, `n` the number of parameters pushed. */
  lemma {:induction false} RunNumbered(o: Options, limit: JsValue, steps: seq<Step>)
    ensures WellNumbered(Run(o, limit, steps).clauses, Run(o, limit, steps).params)
    decreases |steps|
  {
    if steps != [] {
      var front := steps[..|steps| - 1];
      RunNumbered(o, limit, front);
      ApplyKeepsNumbering(Run(o, limit, front), o, limit, steps[|steps| - 1]);
    }
  }

  /** A step keeps every placeholder bound to its intended value. */
  lemma ApplyKeepsBinding(st: BuilderState, o: Options, limit: JsValue, s: Step)
    requires BindsIntended(st.clauses, st.params, o, limit)
    ensures BindsIntended(Apply(st, o, limit, s).clauses, Apply(st, o, limit, s).params, o, limit)
  {
    var n := |st.params|;
    match s
    case Test(f) =>
      if Truthy(OptionFor(o, f)) {
        PushKeepsBinding(st.clauses, st.params, Cond(f, n + 1), o, limit);
      }
    case GroupStep =>
      AppendKeepsBinding(st.clauses, st.params, GroupBy, o, limit);
    case OrderStep =>
      AppendKeepsBinding(st.clauses, st.params, OrderBy, o, limit);
    case LimitStep =>
      PushKeepsBinding(st.clauses, st.params, Limit(n + 1), o, limit);
  }

  /** Every placeholder `$k` is bound to `params[k-1]`, its clause's intended value. */
  lemma {:induction false} RunBindsIntended(o: Options, limit: JsValue, steps: seq<Step>)
    ensures BindsIntended(Run(o, limit, steps).clauses, Run(o, limit, steps).params, o, limit)
    decreases |steps|
  {
    if steps != [] {
      var front := steps[..|steps| - 1];
      RunBindsIntended(o, limit, front);
      ApplyKeepsBinding(Run(o, limit, front), o, limit, steps[|steps| - 1]);
    }
  }

  /** A step adds a filter clause exactly when it tests a truthy option. */
  lemma ApplyFilters(st: BuilderState, o: Options, limit: JsValue, s: Step)
    ensures FiltersOf(Apply(st, o, limit, s).clauses)
         == FiltersOf(st.clauses) + (if s.Test? && Truthy(OptionFor(o, s.f)) then [s.f] else [])
  {
    var n := |st.params|;
    match s
    case Test(f) =>
      FiltersSnoc(st.clauses, Cond(f, n + 1));
    case GroupStep =>
      FiltersSnoc(st.clauses, GroupBy);
    case OrderStep =>
      FiltersSnoc(st.clauses, OrderBy);
    case LimitStep =>
      FiltersSnoc(st.clauses, Limit(n + 1));
  }

  /** The filter clauses are those of the truthy tests, in step order. */
  lemma {:induction false} RunFilters(o: Options, limit: JsValue, steps: seq<Step>)
    ensures FiltersOf(Run(o, limit, steps).clauses) == TruthyTests(o, steps)
    decreases |steps|
  {
    if steps != [] {
      var front, s := steps[..|steps| - 1], steps[|steps| - 1];
      RunFilters(o, limit, front);
      RunSnoc(o, limit, front, s);
      ApplyFilters(Run(o, limit, front), o, limit, s);
      assert steps == front + [s];
    }
  }

  /** Before the LIMIT step, one parameter is pushed per truthy test. */
  lemma {:induction false} RunCount(o: Options, limit: JsValue, steps: seq<Step>)
    requires LimitStep !in steps
    ensures |Run(o, limit, steps).params| == |TruthyTests(o, steps)|
    decreases |steps|
  {
    if steps != [] {
      var front, s := steps[..|steps| - 1], steps[|steps| - 1];
      assert steps == front + [s];
      RunCount(o, limit, front);
      RunSnoc(o, limit, front, s);
    }
  }

  /** A step appends only a clause of its own rank. */
  lemma ApplyKeepsOrder(st: BuilderState, o: Options, limit: JsValue, s: Step)
    requires Ascending(st.clauses)
    requires st.clauses != [] ==> Rank(st.clauses[|st.clauses| - 1]) < StepRank(s)
    ensures var cs := Apply(st, o, limit, s).clauses;
      Ascending(cs) && (cs != [] ==> Rank(cs[|cs| - 1]) <= StepRank(s))
  {
    var n := |st.params|;
    var c := match s
      case Test(f) => Cond(f, n + 1)
      case GroupStep => GroupBy
      case OrderStep => OrderBy
      case LimitStep => Limit(n + 1);
    if Apply(st, o, limit, s).clauses != st.clauses {
      assert Apply(st, o, limit, s).clauses == st.clauses + [c];
      RankedSnoc(st.clauses, c, StepRank(s));
    }
  }

  /** Appending a clause of rank `r` above the last keeps the ranks rising and
      leaves a last clause of rank `r`. */
  lemma RankedSnoc(cs: seq<Clause>, c: Clause, r: nat)
    requires Ascending(cs) && (cs != [] ==> Rank(cs[|cs| - 1]) < r) && Rank(c) == r
    ensures Ascending(cs + [c]) && Rank((cs + [c])[|cs|]) == r
  {
    AscendingSnoc(cs, c);
  }

  lemma StepsAscendingFront(steps: seq<Step>)
    requires StepsAscending(steps) && steps != []
    ensures StepsAscending(steps[..|steps| - 1])
  {
    var front := steps[..|steps| - 1];
    forall i, j | 0 <= i < j < |front| ensures StepRank(front[i]) < StepRank(front[j]) {
      assert front[i] == steps[i] && front[j] == steps[j];
    }
  }

  /** Steps in rising rank append clauses in rising rank, none ranked above the
      last step. */
  lemma {:induction false} RunAscending(o: Options, limit: JsValue, steps: seq<Step>)
    requires StepsAscending(steps)
    ensures var cs := Run(o, limit, steps).clauses;
      Ascending(cs) && (cs != [] ==> steps != [] && Rank(cs[|cs| - 1]) <= StepRank(steps[|steps| - 1]))
    decreases |steps|
  {
    if steps != [] {
      var front, s := steps[..|steps| - 1], steps[|steps| - 1];
      var st := Run(o, limit, front);
      StepsAscendingFront(steps);
      RunAscending(o, limit, front);
      if st.clauses != [] {
        assert front[|front| - 1] == steps[|steps| - 2];
        assert StepRank(steps[|steps| - 2]) < StepRank(s);
      }
      ApplyKeepsOrder(st, o, limit, s);
      assert Run(o, limit, steps) == Apply(st, o, limit, s);
    }
  }

  /** A step keeps GROUP BY and ORDER BY, and the GROUP BY and ORDER BY steps add them. */
  lemma ApplyMentions(st: BuilderState, o: Options, limit: JsValue, s: Step)
    ensures GroupBy in st.clauses || s == GroupStep ==> GroupBy in Apply(st, o, limit, s).clauses
    ensures OrderBy in st.clauses || s == OrderStep ==> OrderBy in Apply(st, o, limit, s).clauses
  {
  }

  /** GROUP BY and ORDER BY are in the query once their steps have run. */
  lemma {:induction false} RunMentions(o: Options, limit: JsValue, steps: seq<Step>)
    ensures GroupStep in steps ==> GroupBy in Run(o, limit, steps).clauses
    ensures OrderStep in steps ==> OrderBy in Run(o, limit, steps).clauses
    decreases |steps|
  {
    if steps != [] {
      var front, s := steps[..|steps| - 1], steps[|steps| - 1];
      RunMentions(o, limit, front);
      ApplyMentions(Run(o, limit, front), o, limit, s);
      assert steps == front + [s];
    }
  }

  /** A filter is among the truthy tests exactly when it is tested and its
      option is truthy. */
  lemma {:induction false} TruthyTestsExactly(o: Options, steps: seq<Step>, f: Filter)
    ensures f in TruthyTests(o, steps) <==> Test(f) in steps && Truthy(OptionFor(o, f))
    decreases |steps|
  {
    if steps != [] {
      var front, s := steps[..|steps| - 1], steps[|steps| - 1];
      TruthyTestsExactly(o, front, f);
      assert steps == front + [s];
    }
  }

  /** Ranks that rise from each clause to the next rise across the whole query. */
  lemma {:induction false} AscendingInFixedOrder(cs: seq<Clause>)
    requires Ascending(cs)
    ensures InFixedOrder(cs)
    decreases |cs|
  {
    if |cs| > 1 {
      var front := cs[..|cs| - 1];
      AscendingInFixedOrder(front);
      forall i, j | 0 <= i < j < |cs| ensures Rank(cs[i]) < Rank(cs[j]) {
        if j < |cs| - 1 {
          assert cs[i] == front[i] && cs[j] == front[j];
        } else if i < |cs| - 2 {
          assert cs[i] == front[i] && cs[|cs| - 2] == front[|cs| - 2];
        }
      }
    }
  }

  /** The builder's steps rise in rank. */
  lemma ProgramAscending()
    ensures StepsAscending(Program)
  {
  }

  /** The LIMIT step is the builder's last step and its only one. */
  lemma PreludeHasNoLimit()
    ensures LimitStep !in Prelude
  {
  }

  /** The finished query's clauses are in the fixed order. */
  lemma FinalOrder(o: Options, limit: JsValue)
    ensures InFixedOrder(Run(o, limit, Program).clauses)
  {
    ProgramAscending();
    RunAscending(o, limit, Program);
    AscendingInFixedOrder(Run(o, limit, Program).clauses);
  }

  /** The finished query has its GROUP BY and its ORDER BY. */
  lemma FinalFixedClauses(o: Options, limit: JsValue)
    ensures GroupBy in Run(o, limit, Program).clauses && OrderBy in Run(o, limit, Program).clauses
  {
    assert GroupStep in Program && OrderStep in Program;
    RunMentions(o, limit, Program);
  }

  /** The finished query has a filter clause for exactly the truthy options, in
      the order they are tested, and one parameter for each plus the limit. */
  lemma FinalCounts(o: Options, limit: JsValue)
    ensures FiltersOf(Run(o, limit, Program).clauses) == TruthyFilters(o)
    ensures |Run(o, limit, Program).params| == |TruthyFilters(o)| + 1
  {
    PreludeHasNoLimit();
    RunCount(o, limit, Prelude);
    RunFilters(o, limit, Program);
    RunSnoc(o, limit, Prelude, LimitStep);
  }

  /** The limit is pushed last, and `LIMIT $n` refers to it. */
  lemma FinalLimit(o: Options, limit: JsValue)
    ensures var st := Run(o, limit, Program);
      && |st.params| > 0 && st.params[|st.params| - 1] == limit
      && |st.clauses| > 0 && st.clauses[|st.clauses| - 1] == Limit(|st.params|)
  {
    RunSnoc(o, limit, Prelude, LimitStep);
  }

  /** The finished query: placeholders `$1..$n` in order, each bound to its
      clause's intended value; a filter clause for exactly the truthy options,
      in the fixed order; one parameter per truthy option plus the limit, which
      is pushed last and is the placeholder of the final LIMIT clause. */
  lemma FinalQuery(o: Options, limit: JsValue)
    ensures var st := Run(o, limit, Program);
      && WellNumbered(st.clauses, st.params)
      && BindsIntended(st.clauses, st.params, o, limit)
      && FiltersOf(st.clauses) == TruthyFilters(o)
      && |st.params| == |TruthyFilters(o)| + 1
      && st.params[|st.params| - 1] == limit
      && InFixedOrder(st.clauses)
      && GroupBy in st.clauses && OrderBy in st.clauses
      && st.clauses[|st.clauses| - 1] == Limit(|st.params|)
  {
    RunNumbered(o, limit, Program);
    RunBindsIntended(o, limit, Program);
    FinalCounts(o, limit);
    FinalLimit(o, limit);
    FinalOrder(o, limit);
    FinalFixedClauses(o, limit);
  }

  // ---------------------------------------------------------------------------
  // The builder

  /** One filter block of the builder, `if (options.x) { queryParams.push(v);
      queryString += ... $${queryParams.length} ... }`: the city is pushed as a
      `%city%` pattern, every other option as it is. */
  method AddFilter(queryString: string, queryParams: seq<JsValue>, clauses: seq<Clause>,
                   options: Options, ghost limit: JsValue, ghost done: seq<Step>, f: Filter)
    returns (queryString': string, queryParams': seq<JsValue>, clauses': seq<Clause>)
    requires BuilderState(clauses, queryParams) == Run(options, limit, done)
    requires queryString == QueryText(clauses)
    ensures BuilderState(clauses', queryParams') == Run(options, limit, done + [Test(f)])
    ensures queryString' == QueryText(clauses')
  {
    RunSnoc(options, limit, done, Test(f));
    queryString', queryParams', clauses' := queryString, queryParams, clauses;
    var option := OptionFor(options, f);
    if Truthy(option) {
      var value := if f == City then CityPattern(option) else option;
      queryParams' := queryParams + [value];
      var c := Cond(f, |queryParams'|);
      assert c == Cond(f, |queryParams| + 1) && value == Intended(c, options, limit);
      RenderSnoc(clauses, c);
      queryString' := queryString + Render(c);
      clauses' := clauses + [c];
    }
  }

  /** The four WHERE filters, tested in turn from the initial query. */
  method AddWhereFilters(queryString: string, options: Options, ghost limit: JsValue)
    returns (queryString': string, queryParams': seq<JsValue>, clauses': seq<Clause>)
    requires queryString == QueryText([])
    ensures BuilderState(clauses', queryParams') == Run(options, limit, WhereSteps)
    ensures queryString' == QueryText(clauses')
  {
    ghost var done: seq<Step> := [];
    queryString', queryParams', clauses' := queryString, [], [];
    queryString', queryParams', clauses' := AddFilter(queryString', queryParams', clauses', options, limit, done, City);
    done := done + [Test(City)];
    queryString', queryParams', clauses' := AddFilter(queryString', queryParams', clauses', options, limit, done, Owner);
    done := done + [Test(Owner)];
    queryString', queryParams', clauses' := AddFilter(queryString', queryParams', clauses', options, limit, done, MinPrice);
    done := done + [Test(MinPrice)];
    queryString', queryParams', clauses' := AddFilter(queryString', queryParams', clauses', options, limit, done, MaxPrice);
    done := done + [Test(MaxPrice)];
    assert done == WhereSteps;
  }

  /** `queryString += GROUP BY properties.id`, between the WHERE filters and HAVING. */
  method AddGroupBy(queryString: string, queryParams: seq<JsValue>, clauses: seq<Clause>,
                    ghost options: Options, ghost limit: JsValue, ghost done: seq<Step>)
    returns (queryString': string, clauses': seq<Clause>)
    requires BuilderState(clauses, queryParams) == Run(options, limit, done)
    requires queryString == QueryText(clauses)
    ensures BuilderState(clauses', queryParams) == Run(options, limit, done + [GroupStep])
    ensures queryString' == QueryText(clauses')
  {
    RunSnoc(options, limit, done, GroupStep);
    RenderSnoc(clauses, GroupBy);
    queryString' := queryString + Render(GroupBy);
    clauses' := clauses + [GroupBy];
  }

  /** The ORDER BY and LIMIT steps together append `ORDER BY` and `LIMIT $n`,
      `n` being the parameter count once the limit is pushed. */
  lemma RunOrderAndLimit(o: Options, limit: JsValue, done: seq<Step>)
    ensures var st := Run(o, limit, done);
      Run(o, limit, done + [OrderStep] + [LimitStep])
        == BuilderState(st.clauses + [OrderBy] + [Limit(|st.params| + 1)], st.params + [limit])
  {
    var st := Run(o, limit, done);
    var ordered := done + [OrderStep];
    RunSnoc(o, limit, done, OrderStep);
    assert Run(o, limit, ordered) == BuilderState(st.clauses + [OrderBy], st.params);
    RunSnoc(o, limit, ordered, LimitStep);
  }

  /** Appending two clauses' texts in one `+=` renders both clauses. */
  lemma RenderTwo(cs: seq<Clause>, c: Clause, d: Clause)
    ensures QueryText(cs + [c] + [d]) == QueryText(cs) + (Render(c) + Render(d))
  {
    RenderSnoc(cs, c);
    RenderSnoc(cs + [c], d);
    AppendAssoc(QueryText(cs), Render(c), Render(d));
  }

  /** The tail of the builder: `queryParams.push(limit)`, then one `+=` that
      appends ORDER BY and `LIMIT $n`, `n` being the new parameter count. */
  method AddOrderAndLimit(queryString: string, queryParams: seq<JsValue>, clauses: seq<Clause>,
                          ghost options: Options, limit: JsValue, ghost done: seq<Step>)
    returns (queryString': string, queryParams': seq<JsValue>, clauses': seq<Clause>)
    requires BuilderState(clauses, queryParams) == Run(options, limit, done)
    requires queryString == QueryText(clauses)
    ensures BuilderState(clauses', queryParams') == Run(options, limit, done + [OrderStep] + [LimitStep])
    ensures queryString' == QueryText(clauses')
  {
    queryParams' := queryParams + [limit];
    var last := Limit(|queryParams'|);
    RunOrderAndLimit(options, limit, done);
    RenderTwo(clauses, OrderBy, last);
    queryString' := queryString + (Render(OrderBy) + Render(last));
    clauses' := clauses + [OrderBy] + [last];
  }

  /** `getAllProperties(options, limit)` up to the call to the pool: the query
      text, its bind parameters, and the clauses the text is made of, which are
      those of the reference builder after all its steps. */
  method BuildQuery(options: Options, limitArg: JsValue)
    returns (queryString: string, queryParams: seq<JsValue>, clauses: seq<Clause>)
    ensures BuilderState(clauses, queryParams) == Run(options, WithDefault(limitArg, Num(10)), Program)
    ensures queryString == QueryText(clauses)
    ensures WellNumbered(clauses, queryParams)
    ensures BindsIntended(clauses, queryParams, options, WithDefault(limitArg, Num(10)))
    ensures FiltersOf(clauses) == TruthyFilters(options) && InFixedOrder(clauses)
    ensures |queryParams| == |TruthyFilters(options)| + 1
    ensures queryParams[|queryParams| - 1] == WithDefault(limitArg, Num(10))
    ensures clauses[|clauses| - 1] == Limit(|queryParams|)
  {
    var limit := WithDefault(limitArg, Num(10));
    queryParams := [];
    clauses := [];
    queryString := SelectHead;
    assert queryString == QueryText(clauses);
    queryString, queryParams, clauses := AddWhereFilters(queryString, options, limit);
    ghost var done := WhereSteps;
    queryString, clauses := AddGroupBy(queryString, queryParams, clauses, options, limit, done);
    done := done + [GroupStep];
    queryString, queryParams, clauses := AddFilter(queryString, queryParams, clauses, options, limit, done, MinRating);
    done := done + [Test(MinRating)];
    queryString, queryParams, clauses := AddOrderAndLimit(queryString, queryParams, clauses, options, limit, done);
    FinalQuery(options, limit);
  }

  // ---------------------------------------------------------------------------
  // Properties of the built query

  /** A filter's clause is present exactly when its option is truthy: an absent
      option, `0`, `""`, `false` or `null` adds neither clause nor parameter. */
  lemma TruthyFiltersExactly(o: Options, f: Filter)
    ensures f in TruthyFilters(o) <==> Truthy(OptionFor(o, f))
  {
    TruthyTestsExactly(o, Program, f);
    assert Test(f) in Program;
  }

  /** In a query in the fixed order, the rating filter comes after GROUP BY and
      every other filter before it. */
  lemma HavingOnlyAfterGroupBy(cs: seq<Clause>, i: nat, g: nat)
    requires InFixedOrder(cs)
    requires i < |cs| && cs[i].Cond? && g < |cs| && cs[g] == GroupBy
    ensures IsHaving(cs[i].filter) <==> g < i
  {
    if IsHaving(cs[i].filter) {
      assert Rank(cs[i]) > Rank(cs[g]);
    } else {
      assert Rank(cs[i]) < Rank(cs[g]);
    }
  }

  /** Both price bounds are inclusive: the minimum is written `>=` and the
      maximum `<=`, so a price equal to either bound passes it. */
  lemma PriceBoundsInclusive(k: nat)
    ensures Op(MinPrice) == Ge && Op(MaxPrice) == Le
    ensures Render(Cond(MinPrice, k)) == " AND cost_per_night/100 >= $" + NatToText(k)
    ensures Render(Cond(MaxPrice, k)) == " AND cost_per_night/100 <= $" + NatToText(k)
    ensures forall price :: Admits(Op(MinPrice), price, price) && Admits(Op(MaxPrice), price, price)
  {
    PriceClauseText(MinPrice, k);
    PriceClauseText(MaxPrice, k);
  }

  lemma PriceClauseText(f: Filter, k: nat)
    requires f == MinPrice || f == MaxPrice
    ensures Render(Cond(f, k)) == " AND cost_per_night/100 " + OpText(Op(f)) + " $" + NatToText(k)
  {
    var head := " AND " + Column(f) + " " + OpText(Op(f)) + " $";
    assert Render(Cond(f, k)) == head + NatToText(k) + "";
    assert head + NatToText(k) + "" == head + NatToText(k);
    PriceClauseHead(f);
  }

  lemma PriceClauseHead(f: Filter)
    requires f == MinPrice || f == MaxPrice
    ensures " AND " + Column(f) + " " + OpText(Op(f)) + " $" == " AND cost_per_night/100 " + OpText(Op(f)) + " $"
  {
    assert Column(f) == "cost_per_night/100";
    assert " AND " + "cost_per_night/100" + " " == " AND cost_per_night/100 ";
  }
}
