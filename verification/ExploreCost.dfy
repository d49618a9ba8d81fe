/** Admission of Explore queries (`explore.rs`): validation and the cost computed in saturating 32-bit steps,
    against the cost in unbounded arithmetic. */
module ExploreCost {
  import opened Common

  datatype Error = InvalidQuery | CostExceeded

  datatype Result<+T> = Ok(value: T) | Err(error: Error)

  const U32_MAX: nat := 0xFFFF_FFFF
  const I64_MAX: int := 0x7FFF_FFFF_FFFF_FFFF

  const MAX_RANGE_MILLIS: int := 30 * 86_400_000
  const MAX_INTERVALS: nat := 1_000
  const MAX_PREDICATES: nat := 128
  const MAX_AGGREGATES: nat := 4
  const MAX_GROUPS: nat := 2
  const MAX_ROWS: nat := 500
  const MAX_NODES: nat := 256
  const MAX_ALTERNATIVES: nat := 64

  datatype Dataset = Errors | Logs | Spans | Metrics

  /** The fields some data set can be grouped by, and the rest. */
  datatype Field = Level | Platform | OperationClass | IsSegment | Name | MetricKind | Unit | OtherField

  datatype Interval = Minute | FiveMinutes | Hour | Day

  /** `typed`: operator, field and values go together in the query's data set. */
  datatype Predicate = Predicate(typed: bool)

  datatype Expression =
    | Leaf(test: Predicate)
    | Not(operand: Expression)
    | And(operands: seq<Expression>)
    | Or(operands: seq<Expression>)

  /** `typed`: the kind accepts the field. */
  datatype Aggregate = Aggregate(typed: bool, name: string)

  datatype Query = Query(dataset: Dataset, from: int, until: int, predicates: seq<Predicate>,
                         expression: Option<Expression>, aggregates: seq<Aggregate>, groupBy: seq<Field>,
                         interval: Option<Interval>, cursor: bool, limit: nat)

  // ---- expressions ----

  function PredicateCount(e: Expression): nat {
    match e
    case Leaf(_) => 1
    case Not(operand) => PredicateCount(operand)
    case And(operands) => PredicateCounts(operands)
    case Or(operands) => PredicateCounts(operands)
  }

  function PredicateCounts(es: seq<Expression>): nat {
    if es == [] then 0 else PredicateCount(es[0]) + PredicateCounts(es[1..])
  }

  function NodeCount(e: Expression): nat {
    match e
    case Leaf(_) => 1
    case Not(operand) => 1 + NodeCount(operand)
    case And(operands) => 1 + NodeCounts(operands)
    case Or(operands) => 1 + NodeCounts(operands)
  }

  function NodeCounts(es: seq<Expression>): nat {
    if es == [] then 0 else NodeCount(es[0]) + NodeCounts(es[1..])
  }

  function Alternatives(e: Expression): nat {
    match e
    case Leaf(_) => 0
    case Not(operand) => Alternatives(operand)
    case And(operands) => AlternativesOf(operands)
    case Or(operands) => |operands| + AlternativesOf(operands)
  }

  function AlternativesOf(es: seq<Expression>): nat {
    if es == [] then 0 else Alternatives(es[0]) + AlternativesOf(es[1..])
  }

  predicate WellTyped(e: Expression) {
    match e
    case Leaf(test) => test.typed
    case Not(operand) => WellTyped(operand)
    case And(operands) => AllWellTyped(operands)
    case Or(operands) => operands != [] && AllWellTyped(operands)
  }

  predicate AllWellTyped(es: seq<Expression>) {
    es == [] || (WellTyped(es[0]) && AllWellTyped(es[1..]))
  }

  /** Alternatives and predicates are nodes: the node limit bounds what an expression may add to the cost. */
  lemma {:induction false} CountsAreNodes(e: Expression)
    ensures PredicateCount(e) <= NodeCount(e) && Alternatives(e) < NodeCount(e)
  {
    match e
    case Leaf(_) =>
    case Not(operand) => CountsAreNodes(operand);
    case And(operands) => AllCountsAreNodes(operands);
    case Or(operands) => AllCountsAreNodes(operands);
  }

  lemma {:induction false} AllCountsAreNodes(es: seq<Expression>)
    ensures PredicateCounts(es) <= NodeCounts(es) && AlternativesOf(es) + |es| <= NodeCounts(es)
  {
    if es != [] {
      CountsAreNodes(es[0]);
      AllCountsAreNodes(es[1..]);
    }
  }

  /** All expressions in the expression, itself first. */
  function Nodes(e: Expression): seq<Expression> {
    match e
    case Leaf(_) => [e]
    case Not(operand) => [e] + Nodes(operand)
    case And(operands) => [e] + AllNodes(operands)
    case Or(operands) => [e] + AllNodes(operands)
  }

  function AllNodes(es: seq<Expression>): seq<Expression> {
    if es == [] then [] else Nodes(es[0]) + AllNodes(es[1..])
  }

  function Leaves(nodes: seq<Expression>): nat {
    if nodes == [] then 0 else Leaves(nodes[..|nodes| - 1]) + if nodes[|nodes| - 1].Leaf? then 1 else 0
  }

  function OrOperands(nodes: seq<Expression>): nat {
    if nodes == [] then 0
    else OrOperands(nodes[..|nodes| - 1]) + if nodes[|nodes| - 1].Or? then |nodes[|nodes| - 1].operands| else 0
  }

  lemma {:induction false} CountsConcat(xs: seq<Expression>, ys: seq<Expression>)
    ensures Leaves(xs + ys) == Leaves(xs) + Leaves(ys) && OrOperands(xs + ys) == OrOperands(xs) + OrOperands(ys)
    decreases |ys|
  {
    if ys == [] {
      assert xs + ys == xs;
    } else {
      assert (xs + ys)[..|xs + ys| - 1] == xs + ys[..|ys| - 1];
      CountsConcat(xs, ys[..|ys| - 1]);
    }
  }

  lemma CountsOne(e: Expression)
    ensures Leaves([e]) == (if e.Leaf? then 1 else 0) && OrOperands([e]) == if e.Or? then |e.operands| else 0
  {
    assert [e][..0] == [];
  }

  /** The predicates are the leaves, the alternatives the operands of all disjunctions, the nodes all expressions. */
  lemma {:induction false} CountsAreFlat(e: Expression)
    ensures NodeCount(e) == |Nodes(e)| && PredicateCount(e) == Leaves(Nodes(e))
    ensures Alternatives(e) == OrOperands(Nodes(e))
  {
    CountsOne(e);
    match e
    case Leaf(_) =>
    case Not(operand) =>
      CountsAreFlat(operand);
      CountsConcat([e], Nodes(operand));
    case And(operands) =>
      AllCountsAreFlat(operands);
      CountsConcat([e], AllNodes(operands));
    case Or(operands) =>
      AllCountsAreFlat(operands);
      CountsConcat([e], AllNodes(operands));
  }

  lemma {:induction false} AllCountsAreFlat(es: seq<Expression>)
    ensures NodeCounts(es) == |AllNodes(es)| && PredicateCounts(es) == Leaves(AllNodes(es))
    ensures AlternativesOf(es) == OrOperands(AllNodes(es))
  {
    if es != [] {
      CountsAreFlat(es[0]);
      AllCountsAreFlat(es[1..]);
      CountsConcat(Nodes(es[0]), AllNodes(es[1..]));
    }
  }

  // ---- which queries are valid ----

  function Groups(dataset: Dataset, field: Field): Option<nat> {
    match (dataset, field)
    case (Errors, Level) => Some(5)
    case (Errors, Platform) => Some(10)
    case (Logs, Level) => Some(6)
    case (Spans, OperationClass) => Some(12)
    case (Spans, IsSegment) => Some(2)
    case (Metrics, Name) => Some(MAX_ROWS)
    case (Metrics, MetricKind) => Some(3)
    case (Metrics, Unit) => Some(64)
    case _ => None
  }

  predicate LabelByte(c: char) { 'a' <= c <= 'z' || '0' <= c <= '9' || c == '_' }

  predicate ValidAggregate(a: Aggregate) {
    a.typed && 0 < |a.name| <= 32 && forall i :: 0 <= i < |a.name| ==> LabelByte(a.name[i])
  }

  function Effective(q: Query): nat {
    if q.expression.Some? then PredicateCount(q.expression.value) else |q.predicates|
  }

  function AlternativesIn(q: Query): nat {
    if q.expression.Some? then Alternatives(q.expression.value) else 0
  }

  /** Timestamps are 64-bit, and so is their difference. */
  function Range(q: Query): int {
    var exact := q.until - q.from;
    if exact > I64_MAX then I64_MAX else if exact < -I64_MAX - 1 then -I64_MAX - 1 else exact
  }

  predicate InBounds(q: Query) {
    && 0 < Range(q) && (q.from == 0 || Range(q) <= MAX_RANGE_MILLIS)
    && Effective(q) <= MAX_PREDICATES
    && (q.expression.Some? ==>
          NodeCount(q.expression.value) <= MAX_NODES && Alternatives(q.expression.value) <= MAX_ALTERNATIVES)
    && |q.aggregates| <= MAX_AGGREGATES && |q.groupBy| <= MAX_GROUPS && 0 < q.limit <= MAX_ROWS
    && (q.aggregates == [] ==> q.groupBy == [] && q.interval.None?)
    && (q.aggregates != [] ==> !q.cursor)
  }

  predicate Typed(q: Query) {
    if q.expression.Some? then WellTyped(q.expression.value)
    else forall i :: 0 <= i < |q.predicates| ==> q.predicates[i].typed
  }

  predicate WellFormed(q: Query) {
    && InBounds(q) && Typed(q)
    && (forall i :: 0 <= i < |q.groupBy| ==> Groups(q.dataset, q.groupBy[i]).Some?)
    && (forall i :: 0 <= i < |q.aggregates| ==> ValidAggregate(q.aggregates[i]))
    && (forall i, j :: 0 <= i < j < |q.aggregates| ==> q.aggregates[i].name != q.aggregates[j].name)
  }

  /** What a valid query cannot be, field by field and with 64-bit times. */
  lemma WellFormedIsBounded(q: Query)
    requires WellFormed(q) && -I64_MAX - 1 <= q.from <= I64_MAX && -I64_MAX - 1 <= q.until <= I64_MAX
    ensures q.from < q.until && (q.until - q.from <= 30 * 24 * 3_600_000 || q.from == 0)
    ensures 1 <= q.limit <= 500 && |q.aggregates| <= 4 && |q.groupBy| <= 2
    ensures q.expression.None? ==> |q.predicates| <= 128
    ensures q.expression.Some? ==>
      && |Nodes(q.expression.value)| <= 256 && Leaves(Nodes(q.expression.value)) <= 128
      && OrOperands(Nodes(q.expression.value)) <= 64
    ensures q.aggregates == [] ==> q.groupBy == [] && q.interval.None?
    ensures q.aggregates != [] ==> !q.cursor
  {
    if q.expression.Some? { CountsAreFlat(q.expression.value); }
  }

  /** And every plain query within these bounds is valid. */
  lemma PlainQueryIsWellFormed(dataset: Dataset, from: int, until: int, predicates: seq<Predicate>, cursor: bool,
                               limit: nat)
    requires from < until && (until - from <= 30 * 24 * 3_600_000 || from == 0) && 1 <= limit <= 500
    requires |predicates| <= 128 && forall i :: 0 <= i < |predicates| ==> predicates[i].typed
    ensures WellFormed(Query(dataset, from, until, predicates, None, [], [], None, cursor, limit))
  {
  }

  // ---- the exact cost ----

  function Millis(i: Interval): int {
    match i
    case Minute => 60_000
    case FiveMinutes => 300_000
    case Hour => 3_600_000
    case Day => 86_400_000
  }

  /** How many units it takes to cover the range. */
  function Covering(range: int, unit: int): nat
    requires range > 0 && unit > 0
  {
    (range + unit - 1) / unit
  }

  lemma CoveringIsLeast(range: int, unit: int)
    requires range > 0 && unit > 0
    ensures (Covering(range, unit) - 1) * unit < range <= Covering(range, unit) * unit
  {
    var sum := range + unit - 1;
    assert sum == sum / unit * unit + sum % unit;
  }

  function Costed(range: int): int { if range < MAX_RANGE_MILLIS then range else MAX_RANGE_MILLIS }

  function Intervals(q: Query): nat
    requires Range(q) > 0
  {
    if q.interval.None? then 1 else Covering(Costed(Range(q)), Millis(q.interval.value))
  }

  function FanOut(dataset: Dataset, groupBy: seq<Field>): nat {
    if groupBy == [] then 1
    else
      var last := Groups(dataset, groupBy[|groupBy| - 1]);
      FanOut(dataset, groupBy[..|groupBy| - 1]) * if last.Some? then last.value else U32_MAX
  }

  function Rows(q: Query): nat
    requires Range(q) > 0
  {
    if q.aggregates == [] then q.limit else Intervals(q)
  }

  function RowCost(rows: nat, fanOut: nat, aggregates: nat): nat { rows * fanOut * (1 + 2 * aggregates) }

  function ExactCost(q: Query): nat
    requires Range(q) > 0
  {
    100 + 2 * Covering(Costed(Range(q)), 3_600_000) + 40 * Effective(q) + 20 * AlternativesIn(q)
    + RowCost(Rows(q), FanOut(q.dataset, q.groupBy), |q.aggregates|)
  }

  // ---- saturating steps ----

  function Clip(n: nat): (r: nat)
    ensures r <= U32_MAX
  {
    if n <= U32_MAX then n else U32_MAX
  }

  function SatAdd(a: nat, b: nat): nat { Clip(a + b) }

  function SatMul(a: nat, b: nat): nat { Clip(a * b) }

  /** Clipping the factors first does not change the clipped product. */
  lemma SatMulClips(a: nat, b: nat)
    ensures SatMul(Clip(a), Clip(b)) == Clip(a * b)
  {
    if a == 0 || b == 0 {
    } else if a > U32_MAX || b > U32_MAX {
      Product(a, b);
      Product(Clip(a), Clip(b));
    }
  }

  lemma Product(a: nat, b: nat)
    requires a > 0 && b > 0
    ensures a * b >= a && a * b >= b
  {
    assert a * b == a + a * (b - 1);
    assert a * b == b + (a - 1) * b;
  }

  method GroupFanOut(dataset: Dataset, groupBy: seq<Field>) returns (fanOut: nat)
    ensures fanOut == Clip(FanOut(dataset, groupBy))
  {
    fanOut := 1;
    assert groupBy[..0] == [];
    for i := 0 to |groupBy|
      invariant fanOut == Clip(FanOut(dataset, groupBy[..i]))
    {
      assert groupBy[..i + 1][..i] == groupBy[..i];
      var groups := Groups(dataset, groupBy[i]);
      SatMulClips(FanOut(dataset, groupBy[..i]), if groups.Some? then groups.value else U32_MAX);
      fanOut := SatMul(fanOut, if groups.Some? then groups.value else U32_MAX);
    }
    assert groupBy[..|groupBy|] == groupBy;
  }

  lemma RowStepsClip(rows: nat, fanOut: nat, aggregates: nat)
    requires aggregates <= MAX_AGGREGATES
    ensures SatMul(SatMul(Clip(rows), Clip(fanOut)), SatAdd(1, Clip(aggregates) * 2)) ==
            Clip(RowCost(rows, fanOut, aggregates))
  {
    SatMulClips(rows, fanOut);
    SatMulClips(rows * fanOut, 1 + 2 * aggregates);
    assert SatAdd(1, Clip(aggregates) * 2) == Clip(1 + 2 * aggregates);
    hide SatMul, Clip;
  }

  lemma HoursClip(hours: nat)
    ensures SatAdd(100, SatMul(Clip(hours), 2)) == Clip(100 + 2 * hours)
  {
  }

  lemma PredicatesClip(predicates: nat, alternatives: nat)
    ensures SatAdd(SatMul(Clip(predicates), 40), SatMul(Clip(alternatives), 20)) ==
            Clip(40 * predicates + 20 * alternatives)
  {
  }

  lemma SumsClip(a: nat, b: nat, c: nat)
    ensures SatAdd(SatAdd(Clip(a), Clip(b)), Clip(c)) == Clip(a + b + c)
  {
  }

  lemma StepsClip(hours: nat, predicates: nat, alternatives: nat, rowCost: nat)
    ensures SatAdd(SatAdd(SatAdd(100, SatMul(Clip(hours), 2)),
                   SatAdd(SatMul(Clip(predicates), 40), SatMul(Clip(alternatives), 20))), Clip(rowCost)) ==
            Clip(100 + 2 * hours + 40 * predicates + 20 * alternatives + rowCost)
  {
    hide SatAdd, SatMul, Clip;
    var a, b := 100 + 2 * hours, 40 * predicates + 20 * alternatives;
    HoursClip(hours);
    PredicatesClip(predicates, alternatives);
    SumsClip(a, b, rowCost);
    assert a + b + rowCost == 100 + 2 * hours + 40 * predicates + 20 * alternatives + rowCost;
  }

  /** The chained saturating steps give the exact cost, clipped once. */
  method Cost(q: Query, intervals: nat) returns (cost: nat)
    requires WellFormed(q) && intervals == Clip(Intervals(q))
    ensures cost == Clip(ExactCost(q))
  {
    RowStepsClip(Rows(q), FanOut(q.dataset, q.groupBy), |q.aggregates|);
    StepsClip(Covering(Costed(Range(q)), 3_600_000), Effective(q), AlternativesIn(q),
              RowCost(Rows(q), FanOut(q.dataset, q.groupBy), |q.aggregates|));
    hide FanOut, RowCost, SatAdd, SatMul, Clip, Covering;
    var hours := Clip(Covering(Costed(Range(q)), 3_600_000));
    var predicates := SatAdd(SatMul(Clip(Effective(q)), 40), SatMul(Clip(AlternativesIn(q)), 20));
    var fanOut := GroupFanOut(q.dataset, q.groupBy);
    var aggregates := SatAdd(1, Clip(|q.aggregates|) * 2);
    var rows := if q.aggregates == [] then Clip(q.limit) else intervals;
    cost := SatAdd(SatAdd(SatAdd(100, SatMul(hours, 2)), predicates), SatMul(SatMul(rows, fanOut), aggregates));
  }

  // ---- valid queries never saturate ----

  lemma GroupsAreFew(dataset: Dataset, field: Field)
    ensures Groups(dataset, field).Some? ==> 0 < Groups(dataset, field).value <= MAX_ROWS
  {
  }

  lemma FanOutIsBounded(dataset: Dataset, groupBy: seq<Field>)
    requires |groupBy| <= MAX_GROUPS
    requires forall i :: 0 <= i < |groupBy| ==> Groups(dataset, groupBy[i]).Some?
    ensures 0 < FanOut(dataset, groupBy) <= MAX_ROWS * MAX_ROWS
  {
    if groupBy != [] {
      GroupsAreFew(dataset, groupBy[|groupBy| - 1]);
      var rest := groupBy[..|groupBy| - 1];
      if rest != [] {
        GroupsAreFew(dataset, rest[0]);
        assert rest[..0] == [];
        assert FanOut(dataset, rest) == Groups(dataset, rest[0]).value;
        Factors(FanOut(dataset, rest), Groups(dataset, groupBy[1]).value, MAX_ROWS, MAX_ROWS);
      }
    }
  }

  lemma Scales(a: nat, b: nat, factor: nat)
    requires a <= b
    ensures a * factor <= b * factor
  {
    assert b * factor == a * factor + (b - a) * factor;
  }

  lemma Factors(a: nat, b: nat, most: nat, atMost: nat)
    requires 0 < a <= most && 0 < b <= atMost
    ensures 0 < a * b <= most * atMost
  {
    Product(a, b);
    Scales(a, most, b);
    Scales(b, atMost, most);
  }

  lemma CoveringGrows(range: int, longer: int, unit: int)
    requires 0 < range <= longer && unit > 0
    ensures Covering(range, unit) <= Covering(longer, unit)
  {
    var a, b := Covering(range, unit), Covering(longer, unit);
    CoveringIsLeast(range, unit);
    CoveringIsLeast(longer, unit);
    assert (a - 1) * unit < b * unit;
    hide Covering;
    Cancels(a - 1, b, unit);
  }

  lemma Cancels(a: int, b: int, unit: int)
    requires unit > 0 && a * unit < b * unit
    ensures a < b
  {
    assert b * unit - a * unit == (b - a) * unit;
  }

  /** No admitted query comes near the 32-bit limit, so the cost it is charged is the exact one. */
  lemma NeverSaturates(q: Query)
    requires WellFormed(q) && Intervals(q) <= MAX_INTERVALS
    ensures ExactCost(q) <= U32_MAX
  {
    var rows := Rows(q);
    FanOutIsBounded(q.dataset, q.groupBy);
    if rows > 0 {
      Factors(rows, FanOut(q.dataset, q.groupBy), 1_000, 250_000);
      Factors(rows * FanOut(q.dataset, q.groupBy), 1 + 2 * |q.aggregates|, 250_000_000, 9);
    }
    CoveringGrows(Costed(Range(q)), MAX_RANGE_MILLIS, 3_600_000);
  }

  // ---- the planner ----

  /** A query is refused as invalid exactly if it is not well formed, and as too costly exactly if its true
      cost or its number of intervals is over the limit. */
  method Plan(q: Query, maximumCost: nat) returns (r: Result<nat>)
    requires maximumCost <= U32_MAX
    ensures r == Err(InvalidQuery) <==> !WellFormed(q)
    ensures WellFormed(q) ==>
      r == if Intervals(q) > MAX_INTERVALS || ExactCost(q) > maximumCost then Err(CostExceeded) else Ok(ExactCost(q))
  {
    if !InBounds(q) || !Typed(q) { return Err(InvalidQuery); }
    for i := 0 to |q.groupBy|
      invariant forall j :: 0 <= j < i ==> Groups(q.dataset, q.groupBy[j]).Some?
    {
      if Groups(q.dataset, q.groupBy[i]).None? { return Err(InvalidQuery); }
    }
    var labels: set<string> := {};
    for i := 0 to |q.aggregates|
      invariant forall j :: 0 <= j < i ==> ValidAggregate(q.aggregates[j])
      invariant forall j, k :: 0 <= j < k < i ==> q.aggregates[j].name != q.aggregates[k].name
      invariant labels == set j | 0 <= j < i :: q.aggregates[j].name
    {
      var a := q.aggregates[i];
      if !ValidAggregate(a) || a.name in labels { return Err(InvalidQuery); }
      labels := labels + {a.name};
    }
    var intervals := Clip(Intervals(q));
    if intervals > MAX_INTERVALS { return Err(CostExceeded); }
    var cost := Cost(q, intervals);
    NeverSaturates(q);
    return if cost > maximumCost then Err(CostExceeded) else Ok(cost);
  }

  /** A query over all retained data that spans more than the longest bounded range is charged at least as
      much as the same query over any bounded range, and wherever it is admitted so is the bounded one. */
  lemma AllTimeCostsNoLess(q: Query, from: int, until: int)
    requires WellFormed(q) && q.from == 0 && Range(q) > MAX_RANGE_MILLIS
    requires from != 0 && WellFormed(q.(from := from, until := until))
    ensures
      var bounded := q.(from := from, until := until);
      ExactCost(bounded) <= ExactCost(q) && Intervals(bounded) <= Intervals(q)
  {
    var bounded := q.(from := from, until := until);
    CoveringGrows(Costed(Range(bounded)), MAX_RANGE_MILLIS, 3_600_000);
    if q.interval.Some? { CoveringGrows(Costed(Range(bounded)), MAX_RANGE_MILLIS, Millis(q.interval.value)); }
    var fan := FanOut(q.dataset, q.groupBy);
    RowCostGrows(Rows(bounded), Rows(q), fan, |q.aggregates|);
    hide Covering, FanOut, RowCost;
  }

  lemma RowCostGrows(rows: nat, more: nat, fanOut: nat, aggregates: nat)
    requires rows <= more
    ensures RowCost(rows, fanOut, aggregates) <= RowCost(more, fanOut, aggregates)
  {
    Scales(rows, more, fanOut);
    Scales(rows * fanOut, more * fanOut, 1 + 2 * aggregates);
  }
}
