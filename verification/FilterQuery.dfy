/**
 Queries with many filters: how `GetClusterManagers` and `GetClusterManagerConfig` build one OR query out of the
 registered single-filter statements, and what a database makes of it. SQL is a sequence of tokens; its meaning is given
 by a parser and positional arguments.
 */
module FilterQueries {
  import opened Services
  import opened Strings

  datatype Column = Id | Name | ManagerId | Key

  datatype Value = Number(n: int) | Text(s: string)

  datatype Token = SelectFrom | Where | OrderBy | Or | And | Open | Close | Equals | Placeholder | Col(column: Column)

  type Sql = seq<Token>

  // The columns that a statement compares, and the arguments for them.
  datatype Criterion = Criterion(columns: seq<Column>, values: seq<Value>) {
    predicate Valid() {
      |columns| == |values| > 0
    }
  }

  datatype ManagerFilter = ManagerFilter(id: Option<int>, name: Option<string>) {
    /** The statement for the filter, if there is one; an empty filter has none either. */
    function ToCriterion(): (r: Option<Criterion>)
      ensures r.Some? ==> r.value.Valid()
    {
      if name.Some? && id == None then Some(Criterion([Name], [Text(name.value)]))
      else if id.Some? && name == None then Some(Criterion([Id], [Number(id.value)]))
      else None
    }
  }

  datatype ConfigFilter = ConfigFilter(id: Option<int>, managerId: Option<int>, key: Option<string>) {
    function ToCriterion(): (r: Option<Criterion>)
      ensures r.Some? ==> r.value.Valid()
    {
      if managerId.Some? && key.Some? && id == None
      then Some(Criterion([ManagerId, Key], [Number(managerId.value), Text(key.value)]))
      else if id.Some? && managerId == None && key == None then Some(Criterion([Id], [Number(id.value)]))
      else if managerId.Some? && id == None && key == None then Some(Criterion([ManagerId], [Number(managerId.value)]))
      else None
    }
  }

  // ---- The registered statements -----------------------------------------------------------------------------------

  function Conditions(columns: seq<Column>): Sql
    requires columns != []
  {
    [Col(columns[0]), Equals, Placeholder] + if |columns| == 1 then [] else [And] + Conditions(columns[1..])
  }

  function Group(columns: seq<Column>): Sql
    requires columns != []
  {
    [Open] + Conditions(columns) + [Close]
  }

  function Statement(columns: seq<Column>): Sql {
    [SelectFrom] + (if columns == [] then [] else [Where] + Group(columns)) + [OrderBy, Col(Id)]
  }

  // ---- What a query means ------------------------------------------------------------------------------------------

  datatype Query = Query(groups: Option<seq<seq<Column>>>, order: Column)

  /** The longest list of conditions joined by AND, and what follows it. */
  function ParseConditions(t: Sql): (r: Option<(seq<Column>, Sql)>)
    ensures r.Some? ==> |r.value.1| < |t|
    decreases |t|
  {
    if |t| < 3 || !t[0].Col? || t[1] != Equals || t[2] != Placeholder then None
    else if |t| > 3 && t[3] == And then
      match ParseConditions(t[4..])
      case None => None
      case Some((columns, rest)) => Some(([t[0].column] + columns, rest))
    else Some(([t[0].column], t[3..]))
  }

  function ParseGroup(t: Sql): (r: Option<(seq<Column>, Sql)>)
    ensures r.Some? ==> |r.value.1| < |t|
  {
    if t == [] || t[0] != Open then None
    else match ParseConditions(t[1..])
      case None => None
      case Some((columns, rest)) => if rest != [] && rest[0] == Close then Some((columns, rest[1..])) else None
  }

  function ParseGroups(t: Sql): Option<(seq<seq<Column>>, Sql)>
    decreases |t|
  {
    match ParseGroup(t)
    case None => None
    case Some((columns, rest)) =>
      if rest != [] && rest[0] == Or then
        match ParseGroups(rest[1..])
        case None => None
        case Some((groups, after)) => Some(([columns] + groups, after))
      else Some(([columns], rest))
  }

  function ParseOrder(groups: Option<seq<seq<Column>>>, t: Sql): Option<Query> {
    if |t| == 2 && t[0] == OrderBy && t[1].Col? then Some(Query(groups, t[1].column)) else None
  }

  function Parse(t: Sql): Option<Query> {
    if t == [] || t[0] != SelectFrom then None
    else if |t| > 1 && t[1] == Where then
      match ParseGroups(t[2..])
      case None => None
      case Some((groups, rest)) => ParseOrder(Some(groups), rest)
    else ParseOrder(None, t[1..])
  }

  datatype Row = Row(id: int, fields: map<Column, Value>) {
    function Get(c: Column): Option<Value> {
      if c == Id then Some(Number(id)) else if c in fields then Some(fields[c]) else None
    }
  }

  function Placeholders(groups: seq<seq<Column>>): nat {
    if groups == [] then 0 else |groups[0]| + Placeholders(groups[1..])
  }

  predicate Satisfies(columns: seq<Column>, values: seq<Value>, row: Row)
    requires |columns| == |values|
  {
    forall j :: 0 <= j < |columns| ==> row.Get(columns[j]) == Some(values[j])
  }

  /** Arguments are taken in the order of the placeholders. */
  predicate Holds(groups: seq<seq<Column>>, args: seq<Value>, row: Row)
    requires |args| == Placeholders(groups)
  {
    groups != []
    && (Satisfies(groups[0], args[..|groups[0]|], row) || Holds(groups[1..], args[|groups[0]|..], row))
  }

  /** Whether the query selects the row; None if it is not a query, or its placeholders and arguments do not match. */
  function Selects(sql: Sql, args: seq<Value>, row: Row): Option<bool> {
    match Parse(sql)
    case None => None
    case Some(Query(None, order)) => if args == [] then Some(true) else None
    case Some(Query(Some(groups), order)) => if |args| == Placeholders(groups) then Some(Holds(groups, args, row)) else None
  }

  /** No value sorts before numbers, and numbers before text. */
  predicate Before(a: Option<Value>, b: Option<Value>) {
    match (a, b)
    case (None, Some(_)) => true
    case (Some(Number(m)), Some(Number(n))) => m < n
    case (Some(Number(_)), Some(Text(_))) => true
    case (Some(Text(s)), Some(Text(t))) => Precedes(s, t)
    case _ => false
  }

  /** The answer to a query: every selected row of the table once, sorted by the column that the query orders by. */
  ghost predicate Answers(sql: Sql, args: seq<Value>, table: set<Row>, answer: seq<Row>) {
    && Parse(sql).Some?
    && (forall row :: row in answer <==> row in table && Selects(sql, args, row) == Some(true))
    && (forall i, j :: 0 <= i < j < |answer| ==> answer[i] != answer[j])
    && (forall i, j :: 0 <= i < j < |answer| ==>
         !Before(answer[j].Get(Parse(sql).value.order), answer[i].Get(Parse(sql).value.order)))
  }

  /** IDs are unique in the table. */
  ghost predicate PrimaryKey(table: set<Row>) {
    forall a, b :: a in table && b in table && a.id == b.id ==> a == b
  }

  // ---- The built query ---------------------------------------------------------------------------------------------

  predicate NonEmpty(groups: seq<seq<Column>>) {
    forall i :: 0 <= i < |groups| ==> groups[i] != []
  }

  function GroupsText(groups: seq<seq<Column>>): Sql
    requires groups != [] && NonEmpty(groups)
  {
    Group(groups[0]) + if |groups| == 1 then [] else [Or] + GroupsText(groups[1..])
  }

  function ColumnsOf(cs: seq<Criterion>): (r: seq<seq<Column>>)
    ensures |r| == |cs| && forall i :: 0 <= i < |r| ==> r[i] == cs[i].columns
  {
    seq(|cs|, i requires 0 <= i < |cs| => cs[i].columns)
  }

  function ValuesOf(cs: seq<Criterion>): seq<Value> {
    if cs == [] then [] else cs[0].values + ValuesOf(cs[1..])
  }

  ghost predicate AllValid(cs: seq<Criterion>) {
    forall i :: 0 <= i < |cs| ==> cs[i].Valid()
  }

  /** The text of the query for two criteria or more. */
  function Built(cs: seq<Criterion>): Sql
    requires cs != [] && AllValid(cs)
  {
    [SelectFrom, Where] + GroupsText(ColumnsOf(cs)) + [OrderBy, Col(Id)]
  }

  lemma {:induction false} ParsesConditions(columns: seq<Column>, rest: Sql)
    requires columns != [] && (rest == [] || rest[0] != And)
    ensures ParseConditions(Conditions(columns) + rest) == Some((columns, rest))
    decreases columns
  {
    var t := Conditions(columns) + rest;
    if |columns| == 1 {
      assert t[3..] == rest && [columns[0]] == columns;
    } else {
      ParsesConditions(columns[1..], rest);
      assert t[4..] == Conditions(columns[1..]) + rest;
      assert [columns[0]] + columns[1..] == columns;
    }
  }

  lemma ParsesGroup(columns: seq<Column>, rest: Sql)
    requires columns != []
    ensures ParseGroup(Group(columns) + rest) == Some((columns, rest))
  {
    ParsesConditions(columns, [Close] + rest);
    assert (Group(columns) + rest)[1..] == Conditions(columns) + ([Close] + rest);
    assert ([Close] + rest)[1..] == rest;
  }

  lemma FirstGroup(groups: seq<seq<Column>>, rest: Sql)
    requires |groups| > 1 && NonEmpty(groups)
    ensures var more := [Or] + (GroupsText(groups[1..]) + rest);
            ParseGroup(GroupsText(groups) + rest) == Some((groups[0], more)) && more[1..] == GroupsText(groups[1..]) + rest
  {
    var more := [Or] + (GroupsText(groups[1..]) + rest);
    ParsesGroup(groups[0], more);
    Regroup(Group(groups[0]), [Or], GroupsText(groups[1..]), rest);
  }

  lemma Regroup(a: Sql, b: Sql, c: Sql, d: Sql)
    ensures a + (b + c) + d == a + (b + (c + d))
  {
  }

  lemma {:induction false} ParsesGroups(groups: seq<seq<Column>>, rest: Sql)
    requires groups != [] && NonEmpty(groups) && (rest == [] || rest[0] != Or)
    ensures ParseGroups(GroupsText(groups) + rest) == Some((groups, rest))
    decreases groups
  {
    if |groups| == 1 {
      ParsesGroup(groups[0], rest);
      assert GroupsText(groups) + rest == Group(groups[0]) + rest && [groups[0]] == groups;
    } else {
      FirstGroup(groups, rest);
      ParsesGroups(groups[1..], rest);
      assert [groups[0]] + groups[1..] == groups;
    }
  }

  /** The built query parses to one group per criterion, in order. */
  lemma ParsesBuilt(cs: seq<Criterion>)
    requires cs != [] && AllValid(cs)
    ensures Parse(Built(cs)) == Some(Query(Some(ColumnsOf(cs)), Id))
  {
    var groups := ColumnsOf(cs);
    ParsesGroups(groups, [OrderBy, Col(Id)]);
    assert Built(cs)[2..] == GroupsText(groups) + [OrderBy, Col(Id)];
  }

  /** A single-filter statement is the query for one criterion. */
  lemma StatementIsBuilt(c: Criterion)
    requires c.Valid()
    ensures Built([c]) == Statement(c.columns) && ValuesOf([c]) == c.values
  {
    assert ColumnsOf([c]) == [c.columns];
    assert GroupsText([c.columns]) == Group(c.columns);
  }

  /** Placeholders and arguments line up, and each criterion is tested with its own arguments. */
  lemma {:induction false} Aligned(cs: seq<Criterion>, row: Row)
    requires AllValid(cs)
    ensures Placeholders(ColumnsOf(cs)) == |ValuesOf(cs)|
    ensures Holds(ColumnsOf(cs), ValuesOf(cs), row) <==>
            exists i :: 0 <= i < |cs| && Satisfies(cs[i].columns, cs[i].values, row)
    decreases cs
  {
    if cs != [] {
      Aligned(cs[1..], row);
      assert ColumnsOf(cs)[1..] == ColumnsOf(cs[1..]);
      var args := ValuesOf(cs);
      assert args[..|cs[0].columns|] == cs[0].values && args[|cs[0].columns|..] == ValuesOf(cs[1..]);
      if i :| 0 <= i < |cs| && Satisfies(cs[i].columns, cs[i].values, row) {
        if i > 0 { assert cs[1..][i - 1] == cs[i]; }
      }
    }
  }

  lemma SelectsIff(cs: seq<Criterion>, row: Row)
    requires cs != [] && AllValid(cs)
    ensures Selects(Built(cs), ValuesOf(cs), row) ==
            Some(exists i :: 0 <= i < |cs| && Satisfies(cs[i].columns, cs[i].values, row))
  {
    ParsesBuilt(cs);
    Aligned(cs, row);
  }

  /**
   On every table the answer to the built query with the collected arguments is the union of the answers to the
   single-filter statements, each row once and, as the built query says, in the order of the IDs.
   */
  lemma AnswerIsUnion(cs: seq<Criterion>, table: set<Row>, answer: seq<Row>, singles: seq<seq<Row>>)
    requires cs != [] && AllValid(cs) && |singles| == |cs|
    requires Answers(Built(cs), ValuesOf(cs), table, answer)
    requires forall i :: 0 <= i < |cs| ==> Answers(Statement(cs[i].columns), cs[i].values, table, singles[i])
    ensures Parse(Built(cs)) == Some(Query(Some(ColumnsOf(cs)), Id)) && Placeholders(ColumnsOf(cs)) == |ValuesOf(cs)|
    ensures forall row :: row in answer <==> exists i :: 0 <= i < |singles| && row in singles[i]
    ensures forall i, j :: 0 <= i < j < |answer| ==> answer[i] != answer[j] && answer[i].id <= answer[j].id
    ensures PrimaryKey(table) ==> forall i, j :: 0 <= i < j < |answer| ==> answer[i].id < answer[j].id
  {
    ParsesBuilt(cs);
    Aligned(cs, Row(0, map[]));
    forall i, j | 0 <= i < j < |answer|
      ensures answer[i].id <= answer[j].id && (PrimaryKey(table) ==> answer[i].id < answer[j].id)
    {
      assert !Before(answer[j].Get(Id), answer[i].Get(Id));
      assert answer[i] in answer && answer[j] in answer;
    }
    forall row ensures row in answer <==> exists i :: 0 <= i < |singles| && row in singles[i] {
      SelectsIff(cs, row);
      forall i | 0 <= i < |cs|
        ensures row in singles[i] <==> row in table && Satisfies(cs[i].columns, cs[i].values, row)
      {
        StatementIsBuilt(cs[i]);
        SelectsIff([cs[i]], row);
        assert Answers(Statement(cs[i].columns), cs[i].values, table, singles[i]);
      }
    }
  }

  // ---- The code ----------------------------------------------------------------------------------------------------

  /** Splits at the first occurrence of `at`; without one the second part is empty. */
  function Cut(t: Sql, at: Token): (r: (Sql, Sql))
    ensures at !in r.0
    ensures at in t ==> t == r.0 + [at] + r.1
  {
    if t == [] then ([], [])
    else if t[0] == at then ([], t[1..])
    else var (before, after) := Cut(t[1..], at); ([t[0]] + before, after)
  }

  lemma {:induction false} CutAt(before: Sql, at: Token, after: Sql)
    requires at !in before
    ensures Cut(before + [at] + after, at) == (before, after)
    decreases before
  {
    var t := before + [at] + after;
    if before == [] {
      assert t[1..] == after;
    } else {
      CutAt(before[1..], at, after);
      assert t[0] == before[0] && before[0] in before;
      assert t[1..] == before[1..] + [at] + after;
      assert [before[0]] + before[1..] == before;
    }
  }

  lemma {:induction false} NoKeywords(columns: seq<Column>)
    requires columns != []
    ensures OrderBy !in Conditions(columns) && Where !in Conditions(columns)
    decreases columns
  {
    if |columns| > 1 { NoKeywords(columns[1..]); }
  }

  /** The criteria seen so far as the two parts of a query around ORDER BY. */
  ghost predicate Parts(cs: seq<Criterion>, parts: (Sql, Sql)) {
    AllValid(cs) && cs != [] && parts == ([SelectFrom, Where] + GroupsText(ColumnsOf(cs)), [Col(Id)])
  }

  /** Adds the statement for one more criterion to the query. */
  method AddStatement(i: nat, c: Criterion, parts: (Sql, Sql), ghost cs: seq<Criterion>) returns (parts': (Sql, Sql))
    requires c.Valid() && |cs| == i && (i > 0 ==> Parts(cs, parts))
    ensures Parts(cs + [c], parts')
  {
    var query := Statement(c.columns);
    var split := Cut(query, OrderBy);
    SplitStatement(c.columns);
    if i == 0 {
      assert ColumnsOf(cs + [c]) == [c.columns];
      assert GroupsText([c.columns]) == Group(c.columns);
      return split;
    }
    var cut := Cut(split.0, Where);
    OneMorePart(cs, c);
    parts' := (parts.0 + [Or] + cut.1, parts.1);
  }

  lemma OneMorePart(cs: seq<Criterion>, c: Criterion)
    requires cs != [] && AllValid(cs) && c.Valid()
    ensures [SelectFrom, Where] + GroupsText(ColumnsOf(cs)) + [Or] + Group(c.columns)
            == [SelectFrom, Where] + GroupsText(ColumnsOf(cs + [c]))
  {
    OneMoreGroup(ColumnsOf(cs), c.columns);
    assert ColumnsOf(cs + [c]) == ColumnsOf(cs) + [c.columns];
    var groups := GroupsText(ColumnsOf(cs));
    assert [SelectFrom, Where] + groups + [Or] + Group(c.columns)
           == [SelectFrom, Where] + (groups + [Or] + Group(c.columns));
  }

  lemma SplitStatement(columns: seq<Column>)
    requires columns != []
    ensures Cut(Statement(columns), OrderBy) == ([SelectFrom, Where] + Group(columns), [Col(Id)])
    ensures Cut([SelectFrom, Where] + Group(columns), Where) == ([SelectFrom], Group(columns))
  {
    SplitAtOrder(columns);
    SplitAtWhere(Group(columns));
  }

  lemma SplitAtOrder(columns: seq<Column>)
    requires columns != []
    ensures Cut(Statement(columns), OrderBy) == ([SelectFrom, Where] + Group(columns), [Col(Id)])
  {
    OrderLast(Group(columns));
    NotInGroup(columns);
    CutAt([SelectFrom, Where] + Group(columns), OrderBy, [Col(Id)]);
  }

  lemma OrderLast(group: Sql)
    ensures [SelectFrom] + ([Where] + group) + [OrderBy, Col(Id)] == [SelectFrom, Where] + group + [OrderBy] + [Col(Id)]
  {
  }

  lemma NotInGroup(columns: seq<Column>)
    requires columns != []
    ensures OrderBy !in [SelectFrom, Where] + Group(columns)
  {
    NoKeywords(columns);
  }

  lemma SplitAtWhere(group: Sql)
    ensures Cut([SelectFrom, Where] + group, Where) == ([SelectFrom], group)
  {
    assert [SelectFrom, Where] + group == [SelectFrom] + [Where] + group;
    CutAt([SelectFrom], Where, group);
  }

  lemma {:induction false} OneMoreGroup(groups: seq<seq<Column>>, columns: seq<Column>)
    requires groups != [] && columns != [] && NonEmpty(groups)
    ensures GroupsText(groups + [columns]) == GroupsText(groups) + [Or] + Group(columns)
    decreases groups
  {
    var more := groups + [columns];
    assert more[1..] == groups[1..] + [columns];
    if |groups| == 1 {
      assert more[1..] == [columns];
    } else {
      OneMoreGroup(groups[1..], columns);
    }
  }

  lemma {:induction false} OneMoreValues(cs: seq<Criterion>, c: Criterion)
    ensures ValuesOf(cs + [c]) == ValuesOf(cs) + c.values
    decreases cs
  {
    if cs == [] {
      assert ValuesOf([c]) == c.values + ValuesOf([]);
    } else {
      OneMoreValues(cs[1..], c);
      assert (cs + [c])[1..] == cs[1..] + [c];
    }
  }

  /** What is sent to the database: a registered statement for no filter or one, else the built query. */
  ghost predicate Sent(cs: seq<Criterion>, sql: Sql, args: seq<Value>) {
    && AllValid(cs) && args == ValuesOf(cs)
    && sql == if cs == [] then Statement([]) else if |cs| == 1 then Statement(cs[0].columns) else Built(cs)
  }

  /** What is sent selects every row without filters, and else the rows that meet some filter. */
  lemma SentSelects(cs: seq<Criterion>, sql: Sql, args: seq<Value>, row: Row)
    requires Sent(cs, sql, args)
    ensures Selects(sql, args, row) ==
            Some(cs == [] || exists i :: 0 <= i < |cs| && Satisfies(cs[i].columns, cs[i].values, row))
  {
    if cs == [] {
      assert Statement([])[1..] == [OrderBy, Col(Id)];
    } else {
      if |cs| == 1 {
        StatementIsBuilt(cs[0]);
        assert cs == [cs[0]];
      }
      SelectsIff(cs, row);
    }
  }

  function Criteria<F>(filters: seq<F>, statement: F -> Option<Criterion>): (r: seq<Criterion>)
    requires forall i :: 0 <= i < |filters| ==> statement(filters[i]).Some?
    ensures |r| == |filters| && forall i :: 0 <= i < |r| ==> statement(filters[i]) == Some(r[i])
  {
    seq(|filters|, i requires 0 <= i < |filters| => statement(filters[i]).value)
  }

  lemma OneMoreCriterion<F>(filters: seq<F>, statement: F -> Option<Criterion>, i: nat)
    requires i < |filters| && forall j :: 0 <= j <= i ==> statement(filters[j]).Some?
    ensures Criteria(filters[..i + 1], statement) == Criteria(filters[..i], statement) + [statement(filters[i]).value]
  {
    assert forall j :: 0 <= j <= i ==> filters[..i + 1][j] == filters[j];
  }

  const MANAGER: ManagerFilter -> Option<Criterion> := (f: ManagerFilter) => f.ToCriterion()

  const CONFIG: ConfigFilter -> Option<Criterion> := (f: ConfigFilter) => f.ToCriterion()

  // The statement, the arguments and the parts of the query on the way.
  datatype Draft = Draft(sql: Sql, args: seq<Value>, parts: (Sql, Sql))

  /** The draft after the criteria `cs` out of `n`. */
  ghost predicate Drafted(n: nat, cs: seq<Criterion>, d: Draft) {
    && AllValid(cs) && d.args == ValuesOf(cs)
    && (cs == [] ==> d.sql == Statement([]))
    && (cs != [] && n == 1 ==> d.sql == Statement(cs[|cs| - 1].columns))
    && (cs != [] && n > 1 ==> Parts(cs, d.parts))
  }

  method AddFilter(n: nat, i: nat, c: Criterion, d: Draft, ghost cs: seq<Criterion>) returns (d': Draft)
    requires c.Valid() && |cs| == i < n && Drafted(n, cs, d)
    ensures Drafted(n, cs + [c], d')
  {
    OneMoreValues(cs, c);
    d' := d.(args := d.args + c.values);
    if n == 1 {
      d' := d'.(sql := Statement(c.columns));
    } else {
      var parts := AddStatement(i, c, d.parts, cs);
      d' := d'.(parts := parts);
    }
  }

  method Select(n: nat, d: Draft, ghost cs: seq<Criterion>) returns (sql: Sql, args: seq<Value>)
    requires n == |cs| && Drafted(n, cs, d)
    ensures Sent(cs, sql, args)
  {
    sql, args := d.sql, d.args;
    if n > 1 { sql := d.parts.0 + [OrderBy] + d.parts.1; }
  }

  method GetClusterManagers(filters: seq<ManagerFilter>) returns (ok: bool, sql: Sql, args: seq<Value>)
    ensures ok <==> forall i :: 0 <= i < |filters| ==> filters[i].ToCriterion().Some?
    ensures ok ==> Sent(Criteria(filters, MANAGER), sql, args)
  {
    var d := Draft(Statement([]), [], ([], []));
    for i := 0 to |filters|
      invariant forall j :: 0 <= j < i ==> filters[j].ToCriterion().Some?
      invariant Drafted(|filters|, Criteria(filters[..i], MANAGER), d)
    {
      var c := filters[i].ToCriterion();
      if c == None { return false, [], []; }
      ghost var before := Criteria(filters[..i], MANAGER);
      OneMoreCriterion(filters, MANAGER, i);
      d := AddFilter(|filters|, i, c.value, d, before);
    }
    assert filters[..|filters|] == filters;
    sql, args := Select(|filters|, d, Criteria(filters, MANAGER));
    ok := true;
  }

  method GetClusterManagerConfig(filters: seq<ConfigFilter>) returns (ok: bool, sql: Sql, args: seq<Value>)
    ensures ok <==> forall i :: 0 <= i < |filters| ==> filters[i].ToCriterion().Some?
    ensures ok ==> Sent(Criteria(filters, CONFIG), sql, args)
  {
    var d := Draft(Statement([]), [], ([], []));
    for i := 0 to |filters|
      invariant forall j :: 0 <= j < i ==> filters[j].ToCriterion().Some?
      invariant Drafted(|filters|, Criteria(filters[..i], CONFIG), d)
    {
      var c := filters[i].ToCriterion();
      if c == None { return false, [], []; }
      ghost var before := Criteria(filters[..i], CONFIG);
      OneMoreCriterion(filters, CONFIG, i);
      d := AddFilter(|filters|, i, c.value, d, before);
    }
    assert filters[..|filters|] == filters;
    sql, args := Select(|filters|, d, Criteria(filters, CONFIG));
    ok := true;
  }
}
