/** The query builder the report data stores use: a statement is a map from
    clause kind to the fragments added under that kind, in the order they
    were added. Rendering concatenates the kinds in a fixed order. */
module SqlQueryModel {
  import opened Basics

  datatype ClauseKind =
    | Select | From | Join | LeftJoin | RightJoin
    | WhereTime | Where | GroupBy | Having | OrderBy | Limit

  type Clauses = map<ClauseKind, seq<string>>

  /** The order in which the clause kinds appear in a rendered statement. */
  const RenderOrder: seq<ClauseKind> :=
    [Select, From, Join, LeftJoin, RightJoin, WhereTime, Where, GroupBy, Having, OrderBy, Limit]

  /** The fragments added so far under `kind` (none if the kind was never used). */
  function Fragments(c: Clauses, kind: ClauseKind): seq<string>
  {
    if kind in c then c[kind] else []
  }

  /** `add_sql_clause( kind, fragment )`: appends under `kind`, touches no other kind. */
  function AddClause(c: Clauses, kind: ClauseKind, fragment: string): (r: Clauses)
    ensures Fragments(r, kind) == Fragments(c, kind) + [fragment]
  {
    c[kind := Fragments(c, kind) + [fragment]]
  }

  /** Adding under one kind leaves every other kind's fragments as they were. */
  lemma AddClauseFrame(c: Clauses, kind: ClauseKind, fragment: string, other: ClauseKind)
    requires other != kind
    ensures Fragments(AddClause(c, kind, fragment), other) == Fragments(c, other)
  {
  }

  /** `get_sql_clause( kind )`: the fragments of one kind joined by spaces. */
  function ClauseText(c: Clauses, kind: ClauseKind): string
  {
    JoinWith(Fragments(c, kind), " ")
  }

  function RenderKinds(c: Clauses, kinds: seq<ClauseKind>): string
  {
    if kinds == [] then "" else ClauseText(c, kinds[0]) + "\n" + RenderKinds(c, kinds[1..])
  }

  /** `get_query_statement()`. */
  function Render(c: Clauses): string
  {
    RenderKinds(c, RenderOrder)
  }

  // ---------------------------------------------------------------------
  // Every fragment of a statement occurs in its rendering.
  // ---------------------------------------------------------------------

  lemma {:induction false} ContainsSelf(s: string)
    ensures Contains(s, s)
  {
  }

  lemma {:induction false} ContainsAppend(s: string, tail: string, sub: string)
    requires Contains(s, sub)
    ensures Contains(s + tail, sub)
    decreases |s|
  {
    if sub <= s {
      assert sub <= s + tail;
    } else {
      assert (s + tail)[1..] == s[1..] + tail;
      ContainsAppend(s[1..], tail, sub);
    }
  }

  lemma {:induction false} ContainsPrepend(head: string, s: string, sub: string)
    requires Contains(s, sub)
    ensures Contains(head + s, sub)
    decreases |head|
  {
    if head != [] {
      assert (head + s)[1..] == head[1..] + s;
      ContainsPrepend(head[1..], s, sub);
    } else {
      assert head + s == s;
    }
  }

  lemma {:induction false} ContainsInfix(head: string, s: string, tail: string, sub: string)
    requires Contains(s, sub)
    ensures Contains(head + s + tail, sub)
  {
    ContainsPrepend(head, s, sub);
    ContainsAppend(head + s, tail, sub);
  }

  lemma {:induction false} JoinContainsPart(parts: seq<string>, sep: string, i: nat)
    requires i < |parts|
    ensures Contains(JoinWith(parts, sep), parts[i])
    decreases |parts|
  {
    ContainsSelf(parts[i]);
    if |parts| == 1 {
    } else if i == 0 {
      ContainsAppend(parts[0], sep + JoinWith(parts[1..], sep), parts[0]);
      assert parts[0] + sep + JoinWith(parts[1..], sep) == parts[0] + (sep + JoinWith(parts[1..], sep));
    } else {
      JoinContainsPart(parts[1..], sep, i - 1);
      ContainsPrepend(parts[0] + sep, JoinWith(parts[1..], sep), parts[i]);
    }
  }

  lemma {:induction false} RenderKindsContains(c: Clauses, kinds: seq<ClauseKind>, j: nat, fragment: string)
    requires j < |kinds|
    requires fragment in Fragments(c, kinds[j])
    ensures Contains(RenderKinds(c, kinds), fragment)
    decreases |kinds|
  {
    if j == 0 {
      var i :| 0 <= i < |Fragments(c, kinds[0])| && Fragments(c, kinds[0])[i] == fragment;
      JoinContainsPart(Fragments(c, kinds[0]), " ", i);
      ContainsAppend(ClauseText(c, kinds[0]), "\n" + RenderKinds(c, kinds[1..]), fragment);
      assert RenderKinds(c, kinds) == ClauseText(c, kinds[0]) + ("\n" + RenderKinds(c, kinds[1..]));
    } else {
      RenderKindsContains(c, kinds[1..], j - 1, fragment);
      ContainsPrepend(ClauseText(c, kinds[0]) + "\n", RenderKinds(c, kinds[1..]), fragment);
    }
  }

  /** Whatever was added under any kind appears in the rendered statement. */
  lemma RenderedContainsFragment(c: Clauses, kind: ClauseKind, fragment: string)
    requires fragment in Fragments(c, kind)
    ensures Contains(Render(c), fragment)
  {
    var j :| 0 <= j < |RenderOrder| && RenderOrder[j] == kind by {
      assert kind == RenderOrder[match kind
        case Select => 0 case From => 1 case Join => 2 case LeftJoin => 3
        case RightJoin => 4 case WhereTime => 5 case Where => 6 case GroupBy => 7
        case Having => 8 case OrderBy => 9 case Limit => 10];
    }
    RenderKindsContains(c, RenderOrder, j, fragment);
  }

  /** The mutable query object (`SqlQuery`), holding its clause map. */
  class SqlQuery {
    const context: string
    var clauses: Clauses

    constructor (context: string)
      ensures this.context == context
      ensures clauses == map[]
    {
      this.context := context;
      clauses := map[];
    }

    method AddSqlClause(kind: ClauseKind, fragment: string)
      modifies this
      ensures clauses == AddClause(old(clauses), kind, fragment)
    {
      clauses := AddClause(clauses, kind, fragment);
    }

    function GetSqlClause(kind: ClauseKind): string
      reads this
    {
      ClauseText(clauses, kind)
    }

    function GetQueryStatement(): string
      reads this
    {
      Render(clauses)
    }
  }
}
