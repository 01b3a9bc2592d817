/** The catalog's List: a filter compiled to a query with positional arguments, and what the database makes of it. */
module Catalog {
  import opened Wrappers
  import opened Sequences
  import opened Like

  datatype Command = Command(id: nat, name: string, description: string, category: string, isActive: bool)

  datatype RoleRow = RoleRow(command: nat, role: string)

  datatype Database = Database(commands: seq<Command>, roles: seq<RoleRow>)

  datatype Filter = Filter(
    roles: seq<string>,
    isActive: Option<bool>,
    category: string,
    search: string,
    page: int,
    pageSize: int)

  /** The database server's case folding, and the order in which its collation puts names. */
  datatype Server = Server(fold: char -> char, before: (string, string) -> bool)

  /** The order is strict and total. */
  ghost predicate Collates(server: Server) {
    && (forall a, b, c :: server.before(a, b) && server.before(b, c) ==> server.before(a, c))
    && (forall a :: !server.before(a, a))
    && (forall a, b :: a != b ==> server.before(a, b) || server.before(b, a))
  }

  /** Ids are a primary key, names are unique, and a command has no role twice. */
  ghost predicate KeysHold(db: Database) {
    && (forall i, j :: 0 <= i < j < |db.commands| ==> db.commands[i].id != db.commands[j].id)
    && (forall i, j :: 0 <= i < j < |db.commands| ==> db.commands[i].name != db.commands[j].name)
    && (forall i, j :: 0 <= i < j < |db.roles| ==> db.roles[i] != db.roles[j])
  }

  // ----- What a filter means -----

  predicate Matches(server: Server, db: Database, f: Filter, c: Command) {
    && (f.roles != [] ==> exists i :: 0 <= i < |db.roles| && db.roles[i].command == c.id && db.roles[i].role in f.roles)
    && (f.isActive.Some? ==> c.isActive == f.isActive.value)
    && (f.category != "" ==> c.category == f.category)
    && (f.search != "" ==>
         ILike(server.fold, Pattern(f.search), c.name) || ILike(server.fold, Pattern(f.search), c.description))
  }

  ghost predicate InNameOrder(server: Server, cs: seq<Command>) {
    forall i, j :: 0 <= i < j < |cs| ==> server.before(cs[i].name, cs[j].name)
  }

  /** All commands that match, once each, by name. */
  ghost predicate IsListing(server: Server, db: Database, f: Filter, all: seq<Command>) {
    && (forall c :: c in all <==> c in db.commands && Matches(server, db, f, c))
    && InNameOrder(server, all)
  }

  function Slice(all: seq<Command>, page: nat, pageSize: nat): seq<Command>
    requires page >= 1
  {
    var from := (page - 1) * pageSize;
    if from >= |all| then [] else if from + pageSize >= |all| then all[from..] else all[from..from + pageSize]
  }

  // ----- The query language -----

  datatype Arg = TextArg(text: string) | BoolArg(b: bool) | IntArg(n: int)

  /** Conditions refer to arguments by position, from 1. */
  datatype Condition =
    | RoleIn(places: seq<nat>)
    | ActiveIs(place: nat)
    | CategoryIs(place: nat)
    | NameOrDescriptionLike(name: nat, description: nat)

  /** A row of the commands, joined with a row of the roles if the query says so. */
  datatype Row = Row(command: Command, role: string)

  function Bound(args: seq<Arg>, place: nat): Option<Arg> {
    if 1 <= place <= |args| then Some(args[place - 1]) else None
  }

  predicate LikeArg(server: Server, args: seq<Arg>, place: nat, text: string) {
    var a := Bound(args, place);
    a.Some? && a.value.TextArg? && ILike(server.fold, a.value.text, text)
  }

  predicate Holds(server: Server, cond: Condition, args: seq<Arg>, row: Row) {
    match cond
    case RoleIn(places) => exists i :: 0 <= i < |places| && Bound(args, places[i]) == Some(TextArg(row.role))
    case ActiveIs(place) => Bound(args, place) == Some(BoolArg(row.command.isActive))
    case CategoryIs(place) => Bound(args, place) == Some(TextArg(row.command.category))
    case NameOrDescriptionLike(p, q) =>
      LikeArg(server, args, p, row.command.name) || LikeArg(server, args, q, row.command.description)
  }

  predicate AllHold(server: Server, conds: seq<Condition>, args: seq<Arg>, row: Row) {
    forall i :: 0 <= i < |conds| ==> Holds(server, conds[i], args, row)
  }

  // ----- The database -----

  function RowsOf(c: Command, roles: seq<RoleRow>): seq<Row> {
    if |roles| == 0 then []
    else (if roles[0].command == c.id then [Row(c, roles[0].role)] else []) + RowsOf(c, roles[1..])
  }

  /** FROM, with or without the join, which repeats a command for each of its roles. */
  function From(commands: seq<Command>, roles: seq<RoleRow>, join: bool): seq<Row> {
    if |commands| == 0 then []
    else (if join then RowsOf(commands[0], roles) else [Row(commands[0], "")]) + From(commands[1..], roles, join)
  }

  function Where(server: Server, rows: seq<Row>, conds: seq<Condition>, args: seq<Arg>): seq<Command> {
    if |rows| == 0 then []
    else
      var first := if AllHold(server, conds, args, rows[0]) then [rows[0].command] else [];
      first + Where(server, rows[1..], conds, args)
  }

  function Distinct(cs: seq<Command>): seq<Command> {
    if |cs| == 0 then []
    else
      var front := Distinct(cs[..|cs| - 1]);
      if cs[|cs| - 1] in front then front else front + [cs[|cs| - 1]]
  }

  function Insert(server: Server, cs: seq<Command>, c: Command): seq<Command> {
    if |cs| == 0 || server.before(c.name, cs[0].name) then [c] + cs else [cs[0]] + Insert(server, cs[1..], c)
  }

  function OrderByName(server: Server, cs: seq<Command>): seq<Command> {
    if |cs| == 0 then [] else Insert(server, OrderByName(server, cs[..|cs| - 1]), cs[|cs| - 1])
  }

  function Filtered(server: Server, db: Database, join: bool, conds: seq<Condition>, args: seq<Arg>): seq<Command> {
    Where(server, From(db.commands, db.roles, join), conds, args)
  }

  /** SELECT DISTINCT ... ORDER BY name */
  function Select(server: Server, db: Database, join: bool, conds: seq<Condition>, args: seq<Arg>): seq<Command> {
    OrderByName(server, Distinct(Filtered(server, db, join, conds, args)))
  }

  function Ids(cs: seq<Command>): set<nat> { set c | c in cs :: c.id }

  /** SELECT COUNT(DISTINCT id) */
  function Count(server: Server, db: Database, join: bool, conds: seq<Condition>, args: seq<Arg>): nat {
    |Ids(Filtered(server, db, join, conds, args))|
  }

  // ----- What the database answers -----

  lemma {:induction false} RowsOfMeaning(c: Command, roles: seq<RoleRow>, row: Row)
    ensures row in RowsOf(c, roles) <==>
        row.command == c && exists i :: 0 <= i < |roles| && roles[i] == RoleRow(c.id, row.role)
  {
    if |roles| > 0 {
      RowsOfMeaning(c, roles[1..], row);
      assert forall i :: 0 < i < |roles| ==> roles[i] == roles[1..][i - 1];
    }
  }

  predicate Joins(c: Command, roles: seq<RoleRow>, join: bool, row: Row) {
    row.command == c && if join then RoleRow(c.id, row.role) in roles else row.role == ""
  }

  lemma {:induction false} FromMeaning(commands: seq<Command>, roles: seq<RoleRow>, join: bool, row: Row)
    ensures row in From(commands, roles, join) <==> row.command in commands && Joins(row.command, roles, join, row)
  {
    if |commands| > 0 {
      FromMeaning(commands[1..], roles, join, row);
      RowsOfMeaning(commands[0], roles, row);
      assert commands == [commands[0]] + commands[1..];
    }
  }

  lemma {:induction false} WhereMeaning(server: Server, rows: seq<Row>, conds: seq<Condition>, args: seq<Arg>,
      c: Command)
    ensures c in Where(server, rows, conds, args) <==>
        exists row :: row in rows && row.command == c && AllHold(server, conds, args, row)
  {
    if |rows| > 0 {
      WhereMeaning(server, rows[1..], conds, args, c);
      assert rows == [rows[0]] + rows[1..];
    }
  }

  lemma {:induction false} DistinctMeaning(cs: seq<Command>)
    ensures forall c :: c in Distinct(cs) <==> c in cs
    ensures forall i, j :: 0 <= i < j < |Distinct(cs)| ==> Distinct(cs)[i] != Distinct(cs)[j]
  {
    if |cs| > 0 {
      DistinctMeaning(cs[..|cs| - 1]);
      assert cs == cs[..|cs| - 1] + [cs[|cs| - 1]];
    }
  }

  lemma {:induction false} InsertMeaning(server: Server, cs: seq<Command>, c: Command)
    requires Collates(server) && InNameOrder(server, cs) && forall d :: d in cs ==> d.name != c.name
    ensures forall d :: d in Insert(server, cs, c) <==> d == c || d in cs
    ensures InNameOrder(server, Insert(server, cs, c)) && |Insert(server, cs, c)| == |cs| + 1
  {
    if |cs| > 0 && !server.before(c.name, cs[0].name) {
      var rest := Insert(server, cs[1..], c);
      InsertMeaning(server, cs[1..], c);
      assert cs == [cs[0]] + cs[1..];
      forall d | d in rest ensures server.before(cs[0].name, d.name) {
        if d != c {
          var i :| 0 <= i < |cs[1..]| && cs[1..][i] == d;
          assert cs[i + 1] == d;
        }
      }
    }
  }

  ghost predicate NamesDiffer(cs: seq<Command>) { forall i, j :: 0 <= i < j < |cs| ==> cs[i].name != cs[j].name }

  lemma {:induction false} OrderMeaning(server: Server, cs: seq<Command>)
    requires Collates(server) && NamesDiffer(cs)
    ensures forall c :: c in OrderByName(server, cs) <==> c in cs
    ensures InNameOrder(server, OrderByName(server, cs)) && |OrderByName(server, cs)| == |cs|
  {
    if |cs| > 0 {
      var front := cs[..|cs| - 1];
      assert cs == front + [cs[|cs| - 1]];
      OrderMeaning(server, front);
      InsertMeaning(server, OrderByName(server, front), cs[|cs| - 1]);
    }
  }

  // ----- The compiled filter -----

  function Texts(roles: seq<string>): seq<Arg> { seq(|roles|, i requires 0 <= i < |roles| => TextArg(roles[i])) }

  function RoleArgs(f: Filter): seq<Arg> { Texts(f.roles) }

  function ActiveArgs(f: Filter): seq<Arg> { if f.isActive.Some? then [BoolArg(f.isActive.value)] else [] }

  function CategoryArgs(f: Filter): seq<Arg> { if f.category != "" then [TextArg(f.category)] else [] }

  function SearchArgs(f: Filter): seq<Arg> { if f.search != "" then [TextArg(Pattern(f.search))] else [] }

  function ArgsOf(f: Filter): seq<Arg> { RoleArgs(f) + ActiveArgs(f) + CategoryArgs(f) + SearchArgs(f) }

  function Places(n: nat): seq<nat> { seq(n, i requires 0 <= i < n => i + 1) }

  function RoleConditions(f: Filter): seq<Condition> { if f.roles != [] then [RoleIn(Places(|f.roles|))] else [] }

  function ActiveConditions(f: Filter, place: nat): seq<Condition> {
    if f.isActive.Some? then [ActiveIs(place)] else []
  }

  function CategoryConditions(f: Filter, place: nat): seq<Condition> {
    if f.category != "" then [CategoryIs(place)] else []
  }

  function SearchConditions(f: Filter, place: nat): seq<Condition> {
    if f.search != "" then [NameOrDescriptionLike(place, place)] else []
  }

  /** Each condition refers to the arguments added along with it. */
  function ConditionsOf(f: Filter): seq<Condition> {
    var r, a, c := |RoleArgs(f)|, |ActiveArgs(f)|, |CategoryArgs(f)|;
    RoleConditions(f) + ActiveConditions(f, r + 1) + CategoryConditions(f, r + a + 1)
        + SearchConditions(f, r + a + c + 1)
  }

  /** What a row of the join must be. */
  predicate RowMatches(server: Server, f: Filter, row: Row) {
    && (f.roles != [] ==> row.role in f.roles)
    && (f.isActive.Some? ==> row.command.isActive == f.isActive.value)
    && (f.category != "" ==> row.command.category == f.category)
    && (f.search != "" ==>
         ILike(server.fold, Pattern(f.search), row.command.name)
             || ILike(server.fold, Pattern(f.search), row.command.description))
  }

  lemma AllHoldBoth(server: Server, a: seq<Condition>, b: seq<Condition>, args: seq<Arg>, row: Row)
    ensures AllHold(server, a + b, args, row) <==> AllHold(server, a, args, row) && AllHold(server, b, args, row)
  {
    assert forall i :: 0 <= i < |a| ==> (a + b)[i] == a[i];
    assert forall i :: 0 <= i < |b| ==> (a + b)[|a| + i] == b[i];
  }

  lemma AllHoldFour(server: Server, a: seq<Condition>, b: seq<Condition>, c: seq<Condition>, d: seq<Condition>,
                    args: seq<Arg>, row: Row)
    ensures AllHold(server, a + b + c + d, args, row) <==>
      && AllHold(server, a, args, row) && AllHold(server, b, args, row)
      && AllHold(server, c, args, row) && AllHold(server, d, args, row)
  {
    AllHoldBoth(server, a + b + c, d, args, row);
    AllHoldBoth(server, a + b, c, args, row);
    AllHoldBoth(server, a, b, args, row);
  }

  lemma AllHoldOne(server: Server, cond: Condition, args: seq<Arg>, row: Row)
    ensures AllHold(server, [cond], args, row) <==> Holds(server, cond, args, row)
  {
    assert [cond][0] == cond;
  }

  lemma RoleConditionMeaning(server: Server, f: Filter, after: seq<Arg>, row: Row)
    ensures AllHold(server, RoleConditions(f), RoleArgs(f) + after, row) <==> (f.roles != [] ==> row.role in f.roles)
  {
    if f.roles != [] {
      var args := RoleArgs(f) + after;
      var places := Places(|f.roles|);
      AllHoldOne(server, RoleIn(places), args, row);
      forall i | 0 <= i < |f.roles| ensures Bound(args, places[i]) == Some(TextArg(f.roles[i])) {
        assert args[i] == RoleArgs(f)[i];
      }
      assert Holds(server, RoleIn(places), args, row) <==> row.role in f.roles by {
        if row.role in f.roles {
          var i :| 0 <= i < |f.roles| && f.roles[i] == row.role;
          assert Bound(args, places[i]) == Some(TextArg(row.role));
        }
      }
    }
  }

  lemma BoundAt(args: seq<Arg>, before: seq<Arg>, arg: Arg, after: seq<Arg>)
    requires args == before + [arg] + after
    ensures Bound(args, |before| + 1) == Some(arg)
  {
  }

  lemma ActiveConditionMeaning(server: Server, f: Filter, before: seq<Arg>, after: seq<Arg>, row: Row)
    ensures AllHold(server, ActiveConditions(f, |before| + 1), before + ActiveArgs(f) + after, row)
       <==> (f.isActive.Some? ==> row.command.isActive == f.isActive.value)
  {
    if f.isActive.Some? {
      BoundAt(before + ActiveArgs(f) + after, before, ActiveArgs(f)[0], after);
      AllHoldOne(server, ActiveIs(|before| + 1), before + ActiveArgs(f) + after, row);
    }
  }

  lemma CategoryConditionMeaning(server: Server, f: Filter, before: seq<Arg>, after: seq<Arg>, row: Row)
    ensures AllHold(server, CategoryConditions(f, |before| + 1), before + CategoryArgs(f) + after, row)
       <==> (f.category != "" ==> row.command.category == f.category)
  {
    if f.category != "" {
      BoundAt(before + CategoryArgs(f) + after, before, CategoryArgs(f)[0], after);
      AllHoldOne(server, CategoryIs(|before| + 1), before + CategoryArgs(f) + after, row);
    }
  }

  lemma SearchConditionMeaning(server: Server, f: Filter, before: seq<Arg>, after: seq<Arg>, row: Row)
    ensures AllHold(server, SearchConditions(f, |before| + 1), before + SearchArgs(f) + after, row)
       <==> (f.search != "" ==>
              || ILike(server.fold, Pattern(f.search), row.command.name)
              || ILike(server.fold, Pattern(f.search), row.command.description))
  {
    if f.search != "" {
      BoundAt(before + SearchArgs(f) + after, before, SearchArgs(f)[0], after);
      AllHoldOne(server, NameOrDescriptionLike(|before| + 1, |before| + 1), before + SearchArgs(f) + after, row);
    }
  }

  /** The conditions with their arguments, whatever arguments follow, say of a row what the filter says. */
  lemma CompiledMeaning(server: Server, f: Filter, after: seq<Arg>, row: Row)
    ensures AllHold(server, ConditionsOf(f), ArgsOf(f) + after, row) <==> RowMatches(server, f, row)
  {
    var ra, aa, ca, sa := RoleArgs(f), ActiveArgs(f), CategoryArgs(f), SearchArgs(f);
    AllHoldFour(server, RoleConditions(f), ActiveConditions(f, |ra| + 1), CategoryConditions(f, |ra| + |aa| + 1),
                SearchConditions(f, |ra| + |aa| + |ca| + 1), ArgsOf(f) + after, row);
    Assoc(ra + aa + ca, sa, after);
    Assoc(ra + aa, ca, sa + after);
    Assoc(ra, aa, ca + (sa + after));
    RoleConditionMeaning(server, f, aa + (ca + (sa + after)), row);
    ActiveConditionMeaning(server, f, ra, ca + (sa + after), row);
    CategoryConditionMeaning(server, f, ra + aa, sa + after, row);
    SearchConditionMeaning(server, f, ra + aa + ca, after, row);
  }

  /** What the WHERE clause leaves are the matching commands, whatever the join repeats. */
  lemma FilteredMeaning(server: Server, db: Database, f: Filter, after: seq<Arg>, c: Command)
    ensures c in Filtered(server, db, f.roles != [], ConditionsOf(f), ArgsOf(f) + after)
       <==> c in db.commands && Matches(server, db, f, c)
  {
    var join := f.roles != [];
    var rows := From(db.commands, db.roles, join);
    WhereMeaning(server, rows, ConditionsOf(f), ArgsOf(f) + after, c);
    forall row ensures row in rows <==> row.command in db.commands && Joins(row.command, db.roles, join, row) {
      FromMeaning(db.commands, db.roles, join, row);
    }
    forall row ensures AllHold(server, ConditionsOf(f), ArgsOf(f) + after, row) <==> RowMatches(server, f, row) {
      CompiledMeaning(server, f, after, row);
    }
    if c in db.commands && Matches(server, db, f, c) {
      if join {
        var i :| 0 <= i < |db.roles| && db.roles[i].command == c.id && db.roles[i].role in f.roles;
        var row := Row(c, db.roles[i].role);
        assert db.roles[i] == RoleRow(c.id, row.role);
        assert row in rows && RowMatches(server, f, row);
      } else {
        assert Row(c, "") in rows && RowMatches(server, f, Row(c, ""));
      }
    }
  }

  /** The query's result is the listing, and its count is the number of commands in it. */
  lemma SelectIsListing(server: Server, db: Database, f: Filter, after: seq<Arg>)
    requires Collates(server) && KeysHold(db)
    ensures var all := Select(server, db, f.roles != [], ConditionsOf(f), ArgsOf(f) + after);
      && IsListing(server, db, f, all)
      && Count(server, db, f.roles != [], ConditionsOf(f), ArgsOf(f) + after) == |all|
  {
    var rows := Filtered(server, db, f.roles != [], ConditionsOf(f), ArgsOf(f) + after);
    var distinct := Distinct(rows);
    DistinctMeaning(rows);
    forall c ensures c in rows <==> c in db.commands && Matches(server, db, f, c) {
      FilteredMeaning(server, db, f, after, c);
    }
    KeysOfRows(db, distinct);
    OrderMeaning(server, distinct);
    CountIds(distinct);
    assert Ids(rows) == Ids(distinct);
  }

  ghost predicate IdsDiffer(cs: seq<Command>) { forall i, j :: 0 <= i < j < |cs| ==> cs[i].id != cs[j].id }

  lemma KeysOfRows(db: Database, cs: seq<Command>)
    requires KeysHold(db) && (forall i :: 0 <= i < |cs| ==> cs[i] in db.commands)
    requires forall i, j :: 0 <= i < j < |cs| ==> cs[i] != cs[j]
    ensures IdsDiffer(cs) && NamesDiffer(cs)
  {
    forall i, j | 0 <= i < j < |cs| ensures cs[i].id != cs[j].id && cs[i].name != cs[j].name {
      assert cs[i] in db.commands && cs[j] in db.commands;
    }
  }

  lemma IdsSnoc(front: seq<Command>, last: Command)
    ensures Ids(front + [last]) == Ids(front) + {last.id}
  {
    var cs := front + [last];
    assert forall c :: c in cs <==> c in front || c == last;
    forall id | id in Ids(front) + {last.id} ensures id in Ids(cs) {
      if id == last.id { assert last in cs; }
    }
  }

  lemma IdIsNew(front: seq<Command>, last: Command)
    requires IdsDiffer(front + [last])
    ensures last.id !in Ids(front) && IdsDiffer(front)
  {
    var cs := front + [last];
    assert forall i :: 0 <= i < |front| ==> cs[i] == front[i] && cs[i].id != cs[|front|].id;
  }

  lemma {:induction false} CountIds(cs: seq<Command>)
    requires IdsDiffer(cs)
    ensures |Ids(cs)| == |cs|
  {
    if |cs| > 0 {
      var front, last := cs[..|cs| - 1], cs[|cs| - 1];
      assert cs == front + [last];
      IdIsNew(front, last);
      CountIds(front);
      IdsSnoc(front, last);
    }
  }

  /** There is only one listing for a filter, so the pages that several queries return are pages of the same list. */
  lemma {:induction false} ListingIsUnique(server: Server, a: seq<Command>, b: seq<Command>)
    requires Collates(server) && InNameOrder(server, a) && InNameOrder(server, b)
    requires forall c :: c in a <==> c in b
    ensures a == b
    decreases |a|
  {
    if |b| > 0 { assert b[0] in a; }
    if |a| > 0 {
      assert a[0] in b;
      assert a[0] == b[0];
      forall c ensures c in a[1..] <==> c in b[1..] {
        assert a == [a[0]] + a[1..] && b == [b[0]] + b[1..];
        InOrderOnce(server, a, c);
        InOrderOnce(server, b, c);
      }
      ListingIsUnique(server, a[1..], b[1..]);
      assert a == [a[0]] + a[1..] && b == [b[0]] + b[1..];
    }
  }

  lemma InOrderOnce(server: Server, cs: seq<Command>, c: Command)
    requires Collates(server) && InNameOrder(server, cs) && |cs| > 0
    ensures c in cs[1..] <==> c in cs && c != cs[0]
  {
    assert cs == [cs[0]] + cs[1..];
    forall i | 0 <= i < |cs| - 1 ensures cs[1..][i] != cs[0] {
      assert cs[1..][i] == cs[i + 1] && server.before(cs[0].name, cs[i + 1].name);
    }
  }

  // ----- Pages -----

  function FirstPages(all: seq<Command>, pageSize: nat, n: nat): seq<Command> {
    if n == 0 then [] else FirstPages(all, pageSize, n - 1) + Slice(all, n, pageSize)
  }

  /** Page after page, the pages are the list: nothing is left out, and nothing comes twice. */
  lemma {:induction false} PagesPartition(all: seq<Command>, pageSize: nat, n: nat)
    requires pageSize >= 1
    ensures FirstPages(all, pageSize, n) == if n * pageSize >= |all| then all else all[..n * pageSize]
  {
    if n > 0 {
      PagesPartition(all, pageSize, n - 1);
      assert n * pageSize == (n - 1) * pageSize + pageSize;
    }
  }

  /** LIMIT and OFFSET. */
  function LimitOffset(rows: seq<Command>, limit: nat, offset: nat): seq<Command> {
    var rest := if offset >= |rows| then [] else rows[offset..];
    if |rest| > limit then rest[..limit] else rest
  }

  lemma SliceIsLimitOffset(all: seq<Command>, page: nat, pageSize: nat)
    requires page >= 1
    ensures LimitOffset(all, pageSize, (page - 1) * pageSize) == Slice(all, page, pageSize)
  {
  }

  /**
   A query with LIMIT and OFFSET at these places of its arguments; None is the error of an
   argument that does not fit.
   */
  function SelectPage(server: Server, db: Database, join: bool, conds: seq<Condition>, limit: nat, offset: nat,
      args: seq<Arg>)
    : Option<seq<Command>>
  {
    var l, o := Bound(args, limit), Bound(args, offset);
    if l.Some? && l.value.IntArg? && l.value.n >= 0 && o.Some? && o.value.IntArg? && o.value.n >= 0
    then Some(LimitOffset(Select(server, db, join, conds, args), l.value.n, o.value.n))
    else None
  }

  lemma MoreArgsAreIgnored(server: Server, db: Database, f: Filter, after: seq<Arg>)
    requires Collates(server) && KeysHold(db)
    ensures var all := Select(server, db, f.roles != [], ConditionsOf(f), ArgsOf(f));
      && Select(server, db, f.roles != [], ConditionsOf(f), ArgsOf(f) + after) == all
      && IsListing(server, db, f, all) && Count(server, db, f.roles != [], ConditionsOf(f), ArgsOf(f)) == |all|
  {
    SelectIsListing(server, db, f, []);
    SelectIsListing(server, db, f, after);
    assert ArgsOf(f) + [] == ArgsOf(f);
    ListingIsUnique(server, Select(server, db, f.roles != [], ConditionsOf(f), ArgsOf(f)),
                    Select(server, db, f.roles != [], ConditionsOf(f), ArgsOf(f) + after));
  }

  lemma LastTwoArgs(server: Server, db: Database, join: bool, conds: seq<Condition>, args: seq<Arg>, limit: nat,
      offset: nat)
    ensures var dataArgs := args + [IntArg(limit), IntArg(offset)];
      SelectPage(server, db, join, conds, |args| + 1, |args| + 2, dataArgs) ==
        Some(LimitOffset(Select(server, db, join, conds, dataArgs), limit, offset))
  {
    hide Select, LimitOffset;
  }

  /**
   With limit and offset as the two arguments after those of the conditions, the query returns a
   part of the listing.
   */
  lemma PageIsPart(server: Server, db: Database, f: Filter, limit: nat, offset: nat)
    requires Collates(server) && KeysHold(db)
    ensures var place := |ArgsOf(f)| + 1;
      var dataArgs := ArgsOf(f) + [IntArg(limit), IntArg(offset)];
      var all := Select(server, db, f.roles != [], ConditionsOf(f), ArgsOf(f));
      && SelectPage(server, db, f.roles != [], ConditionsOf(f), place, place + 1, dataArgs) ==
          Some(LimitOffset(all, limit, offset))
      && IsListing(server, db, f, all) && Count(server, db, f.roles != [], ConditionsOf(f), ArgsOf(f)) == |all|
  {
    hide *;
    MoreArgsAreIgnored(server, db, f, [IntArg(limit), IntArg(offset)]);
    LastTwoArgs(server, db, f.roles != [], ConditionsOf(f), ArgsOf(f), limit, offset);
  }

  // ----- The roles of an item -----

  function InsertRole(server: Server, roles: seq<string>, role: string): seq<string> {
    if |roles| == 0 || server.before(role, roles[0]) then [role] + roles
        else [roles[0]] + InsertRole(server, roles[1..], role)
  }

  /** SELECT role ... WHERE command_id = id ORDER BY role */
  function SelectRoles(server: Server, rows: seq<RoleRow>, id: nat): seq<string> {
    if |rows| == 0 then []
    else
      var rest, last := SelectRoles(server, rows[..|rows| - 1], id), rows[|rows| - 1];
      if last.command == id then InsertRole(server, rest, last.role) else rest
  }

  ghost predicate InOrder(server: Server, roles: seq<string>) {
    forall i, j :: 0 <= i < j < |roles| ==> server.before(roles[i], roles[j])
  }

  /** The roles of a command, once each, in the collation's order. */
  ghost predicate RolesAre(server: Server, db: Database, id: nat, roles: seq<string>) {
    InOrder(server, roles) && forall role :: role in roles <==> RoleRow(id, role) in db.roles
  }

  lemma {:induction false} InsertRoleMeaning(server: Server, roles: seq<string>, role: string)
    requires Collates(server) && InOrder(server, roles) && role !in roles
    ensures InOrder(server, InsertRole(server, roles, role))
    ensures forall r :: r in InsertRole(server, roles, role) <==> r == role || r in roles
  {
    if |roles| > 0 && !server.before(role, roles[0]) {
      var rest := InsertRole(server, roles[1..], role);
      assert roles == [roles[0]] + roles[1..];
      InsertRoleMeaning(server, roles[1..], role);
      forall r | r in rest ensures server.before(roles[0], r) {
        if r != role {
          var i :| 0 <= i < |roles[1..]| && roles[1..][i] == r;
          assert roles[i + 1] == r;
        }
      }
    }
  }

  lemma {:induction false} SelectRolesMeaning(server: Server, rows: seq<RoleRow>, id: nat)
    requires Collates(server) && forall i, j :: 0 <= i < j < |rows| ==> rows[i] != rows[j]
    ensures InOrder(server, SelectRoles(server, rows, id))
    ensures forall role :: role in SelectRoles(server, rows, id) <==> RoleRow(id, role) in rows
  {
    if |rows| > 0 {
      var front, last := rows[..|rows| - 1], rows[|rows| - 1];
      assert rows == front + [last];
      SelectRolesMeaning(server, front, id);
      if last.command == id {
        assert RoleRow(id, last.role) !in front;
        InsertRoleMeaning(server, SelectRoles(server, front, id), last.role);
      }
    }
  }

  // ----- The repository -----

  datatype Entry = Entry(command: Command, roles: seq<string>)

  datatype Page = Page(items: seq<Entry>, total: nat, page: nat, pageSize: nat)

  /** Which of the queries succeed: the count, the page, and the i-th look-up of roles. */
  datatype Queries = Queries(count: bool, select: bool, roles: nat -> bool)

  datatype ListError = CountFailed | SelectFailed | RolesFailed(i: nat)

  class CommandRepository {
    const server: Server
    var db: Database

    constructor (server: Server, db: Database)
      ensures this.server == server && this.db == db
    {
      this.server, this.db := server, db;
    }

    /** Builds conditions and arguments; `argIdx` is always the place of the next argument. */
    static method Compile(f: Filter) returns (conditions: seq<Condition>, args: seq<Arg>, argIdx: nat)
      ensures conditions == ConditionsOf(f) && args == ArgsOf(f)
      ensures argIdx == |args| + 1
    {
      conditions, args, argIdx := [], [], 1;
      if |f.roles| > 0 {
        var placeholders: seq<nat> := [];
        var i := 0;
        while i < |f.roles|
          invariant i <= |f.roles| && argIdx == i + 1
          invariant placeholders == Places(i) && args == Texts(f.roles[..i])
        {
          placeholders := placeholders + [argIdx];
          args := args + [TextArg(f.roles[i])];
          argIdx := argIdx + 1;
          i := i + 1;
        }
        assert f.roles[..i] == f.roles;
        conditions := conditions + [RoleIn(placeholders)];
      }
      assert argIdx == |args| + 1 && args == RoleArgs(f) && conditions == RoleConditions(f);
      if f.isActive.Some? {
        conditions := conditions + [ActiveIs(argIdx)];
        args := args + [BoolArg(f.isActive.value)];
        argIdx := argIdx + 1;
      }
      assert argIdx == |args| + 1 && args == RoleArgs(f) + ActiveArgs(f);
      if f.category != "" {
        conditions := conditions + [CategoryIs(argIdx)];
        args := args + [TextArg(f.category)];
        argIdx := argIdx + 1;
      }
      assert argIdx == |args| + 1 && args == RoleArgs(f) + ActiveArgs(f) + CategoryArgs(f);
      if f.search != "" {
        conditions := conditions + [NameOrDescriptionLike(argIdx, argIdx)];
        args := args + [TextArg("%" + f.search + "%")];
        argIdx := argIdx + 1;
      }
    }

    /**
     One page of the listing, each command with its roles, and the number of commands in all
     of it; or the error of the first query that fails.
     */
    method List(f: Filter, queries: Queries) returns (r: Result<Page, ListError>, ghost all: seq<Command>)
      requires Collates(server) && KeysHold(db)
      ensures IsListing(server, db, f, all)
      ensures var commands := Slice(all, if f.page < 1 then 1 else f.page, if f.pageSize < 1 then 20 else f.pageSize);
        match r
        case Ok(p) =>
          && p.total == |all|
          && p.page == (if f.page < 1 then 1 else f.page) && p.pageSize == (if f.pageSize < 1 then 20 else f.pageSize)
          && |p.items| == |commands|
          && (forall i :: 0 <= i < |p.items| ==> p.items[i].command == commands[i])
          && (forall i :: 0 <= i < |p.items| ==> RolesAre(server, db, p.items[i].command.id, p.items[i].roles))
          && queries.count && queries.select && (forall i :: 0 <= i < |commands| ==> queries.roles(i))
        case Err(CountFailed) => !queries.count
        case Err(SelectFailed) => queries.count && !queries.select
        case Err(RolesFailed(i)) =>
          && queries.count && queries.select && i < |commands| && !queries.roles(i)
          && forall j :: 0 <= j < i ==> queries.roles(j)
    {
      var page := if f.page < 1 then 1 else f.page;
      var pageSize := if f.pageSize < 1 then 20 else f.pageSize;
      var total, rows;
      total, rows, all := Query(f, page, pageSize);
      hide *;
      if !queries.count {
        return Err(CountFailed), all;
      }
      if !queries.select || rows.None? {
        return Err(SelectFailed), all;
      }
      var entries := LoadRoles(rows.value, queries.roles);
      r := match entries case Ok(items) => Ok(Page(items, total, page, pageSize)) case Err(i) => Err(RolesFailed(i));
    }

    /** What the count and the page's query return when they succeed. */
    method Query(f: Filter, page: nat, pageSize: nat)
        returns (total: nat, rows: Option<seq<Command>>, ghost all: seq<Command>)
      requires Collates(server) && KeysHold(db) && page >= 1
      ensures IsListing(server, db, f, all) && total == |all| && rows == Some(Slice(all, page, pageSize))
    {
      var offset := (page - 1) * pageSize;
      total, rows, all := QueryPart(f, pageSize, offset);
      SliceIsLimitOffset(all, page, pageSize);
    }

    method QueryPart(f: Filter, limit: nat, offset: nat)
        returns (total: nat, rows: Option<seq<Command>>, ghost all: seq<Command>)
      requires Collates(server) && KeysHold(db)
      ensures IsListing(server, db, f, all) && total == |all| && rows == Some(LimitOffset(all, limit, offset))
    {
      hide *;
      var conditions, args, argIdx := Compile(f);
      var join := |f.roles| > 0;
      PageIsPart(server, db, f, limit, offset);
      all := Select(server, db, join, conditions, args);
      total := Count(server, db, join, conditions, args);
      rows := SelectPage(server, db, join, conditions, argIdx, argIdx + 1, args + [IntArg(limit), IntArg(offset)]);
    }

    /** Looks up the roles of each command, up to the first query that fails. */
    method LoadRoles(commands: seq<Command>, succeeds: nat -> bool) returns (r: Result<seq<Entry>, nat>)
      requires Collates(server) && KeysHold(db)
      ensures match r
        case Ok(items) =>
          && |items| == |commands|
          && (forall i :: 0 <= i < |items| ==>
                && succeeds(i) && items[i].command == commands[i]
                && RolesAre(server, db, items[i].command.id, items[i].roles))
        case Err(i) => i < |commands| && !succeeds(i) && forall j :: 0 <= j < i ==> succeeds(j)
    {
      var items: seq<Entry> := [];
      var i := 0;
      while i < |commands|
        invariant i == |items| <= |commands|
        invariant forall j :: 0 <= j < i ==> succeeds(j) && items[j].command == commands[j]
        invariant forall j :: 0 <= j < i ==> RolesAre(server, db, items[j].command.id, items[j].roles)
      {
        if !succeeds(i) {
          return Err(i);
        }
        SelectRolesMeaning(server, db.roles, commands[i].id);
        items := items + [Entry(commands[i], SelectRoles(server, db.roles, commands[i].id))];
        i := i + 1;
      }
      return Ok(items);
    }
  }

  /**
   What a listing has to be, in the filter's own terms: the commands that some role of the
   filter may run, that are active or not as asked, of the category, and with the search
   text, regardless of case, in name or description.
   */
  lemma ListingMeans(server: Server, db: Database, f: Filter, all: seq<Command>)
    requires Collates(server) && IsListing(server, db, f, all) && Plain(f.search)
    ensures forall c :: c in all <==>
      && c in db.commands
      && (f.roles == [] || exists role :: role in f.roles && RoleRow(c.id, role) in db.roles)
      && (f.isActive == Some(true) ==> c.isActive) && (f.isActive == Some(false) ==> !c.isActive)
      && (f.category == "" || c.category == f.category)
      && (f.search == "" || Contains(server.fold, c.name, f.search) || Contains(server.fold, c.description, f.search))
    ensures forall i, j :: 0 <= i < j < |all| ==> server.before(all[i].name, all[j].name) && all[i] != all[j]
  {
    forall c ensures Matches(server, db, f, c) <==>
      && (f.roles == [] || exists role :: role in f.roles && RoleRow(c.id, role) in db.roles)
      && (f.isActive == Some(true) ==> c.isActive) && (f.isActive == Some(false) ==> !c.isActive)
      && (f.category == "" || c.category == f.category)
      && (f.search == "" || Contains(server.fold, c.name, f.search) || Contains(server.fold, c.description, f.search))
    {
      PlainSearch(server.fold, f.search, c.name);
      PlainSearch(server.fold, f.search, c.description);
      RolesMatch(db, f, c);
    }
    forall i, j | 0 <= i < j < |all| ensures all[i] != all[j] {
      assert server.before(all[i].name, all[j].name);
    }
  }

  lemma RolesMatch(db: Database, f: Filter, c: Command)
    ensures (exists i :: 0 <= i < |db.roles| && db.roles[i].command == c.id && db.roles[i].role in f.roles)
       <==> (exists role :: role in f.roles && RoleRow(c.id, role) in db.roles)
  {
    if i :| 0 <= i < |db.roles| && db.roles[i].command == c.id && db.roles[i].role in f.roles {
      assert db.roles[i] == RoleRow(c.id, db.roles[i].role);
    }
    if role :| role in f.roles && RoleRow(c.id, role) in db.roles {
      var i :| 0 <= i < |db.roles| && db.roles[i] == RoleRow(c.id, role);
    }
  }
}
