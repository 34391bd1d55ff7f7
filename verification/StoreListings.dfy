/**
The list operations of the agent store and of the tool store.  Both write cursors in the
padded alphabet and fall back on pages of twenty.
*/
module StoreListings {
  import opened Common
  import opened Pagination
  import opened Cursor
  import opened Listing
  import opened Sql

  function StoreStyle(codec: TimeCodec): Style {
    CursorStyle(Std, codec, 20)
  }

  // ---------------------------------------------------------------- agents

  datatype AgentData = AgentData(name: string, team: string, rateLimit: int)

  function AgentSchema(): Schema<AgentData> {
    Schema((a: AgentData, name) => if name == "team" then a.team else "", (text, pattern) => false)
  }

  /** No team list lists everyone; a team list, even an empty one, keeps the agents of those teams. */
  function InTeams(teams: Option<seq<string>>): Row<AgentData> -> bool {
    (r: Row<AgentData>) => teams.None? || r.data.team in teams.value
  }

  lemma NarrowToTeams(teams: seq<string>)
    ensures Narrows([], [], [AnyOf("team", 1)], [Texts(teams)], AgentSchema(), InTeams(Some(teams)))
  {
    forall r ensures CondHolds(AnyOf("team", 1), [Texts(teams)], AgentSchema(), r) <==> InTeams(Some(teams))(r) {
    }
    Narrow([], [], AnyOf("team", 1), [Texts(teams)], AgentSchema(), InTeams(Some(teams)));
    assert [] + [AnyOf("team", 1)] == [AnyOf("team", 1)] && [] + [Texts(teams)] == [Texts(teams)];
  }

  method AddTeams(teams: Option<seq<string>>) returns (conds: seq<Cond>, args: seq<Arg>)
    ensures Means(conds, args, AgentSchema(), InTeams(teams))
  {
    conds, args := [], [];
    if teams.Some? {
      conds, args := [AnyOf("team", 1)], [Texts(teams.value)];
      NarrowToTeams(teams.value);
    }
  }

  /** The four statements of the agent store: with and without teams, with and without a cursor. */
  method AgentStatement(teams: Option<seq<string>>, bound: Option<Key>, limit: int) returns (stmt: Statement)
    requires limit >= 1
    ensures Yields(stmt, AgentSchema(), InTeams(teams), bound, limit + 1)
  {
    var conds0, args0 := AddTeams(teams);
    var conds, args := AddBound(bound, conds0, args0, AgentSchema());
    stmt := Statement(conds, args + [Count(limit + 1)], |args| + 1);
    BothYield(conds0, args0, conds, args, AgentSchema(), InTeams(teams), UnderBound(bound), InTeams(teams), bound,
              limit + 1);
  }

  /** A listing of agents is the page of agents of the teams below the cursor. */
  method ListAgents(table: seq<Row<AgentData>>, teams: Option<seq<string>>, cursor: string, limit0: int,
                    codec: TimeCodec)
    returns (r: Result<Listed<AgentData>, CursorError>)
    requires GoodCodec(codec) && Distinct(table) && ByteIds(table)
    ensures r == ListPage(StoreStyle(codec), table, InTeams(teams), cursor, limit0)
    ensures Answers(r, Std, codec, cursor, table,
                    (row: Row<AgentData>) => teams.None? || row.data.team in teams.value,
                    if limit0 <= 0 then 20 else limit0)
  {
    PageAnswers(Std, codec, 20, table, InTeams(teams),
                (row: Row<AgentData>) => teams.None? || row.data.team in teams.value, cursor, limit0);
    var limit := limit0;
    if limit <= 0 { limit := 20; }
    var bound: Option<Key> := None;
    if cursor != "" {
      match DecodeCursor(Std, codec, cursor) {
        case Err(e) => return Err(e);
        case Ok((ts, id)) => bound := Some(Key(ts, id));
      }
    }
    var stmt := AgentStatement(teams, bound, limit);
    var page := Finish(table, InTeams(teams), bound, Run(table, stmt, AgentSchema()), limit, Std, codec, 20);
    return Ok(page);
  }

  // ---------------------------------------------------------------- tools

  datatype ToolData = ToolData(name: string, description: string)

  /** Case-insensitive pattern matching is the database's; here it is a parameter. */
  function ToolSchema(like: (string, string) -> bool): Schema<ToolData> {
    Schema((t: ToolData, name) => if name == "name" then t.name else t.description, like)
  }

  function Searched(query: string, like: (string, string) -> bool): Row<ToolData> -> bool {
    (r: Row<ToolData>) => query == "" || like(r.data.name, "%" + query + "%") ||
        like(r.data.description, "%" + query + "%")
  }

  lemma NarrowToSearch(conds: seq<Cond>, args: seq<Arg>, query: string, like: (string, string) -> bool)
    requires InRange(conds, |args|) && query != ""
    ensures Narrows(conds, args, conds + [Like("name", "description", |args| + 1)], args + [Text("%" + query + "%")],
                    ToolSchema(like), Searched(query, like))
  {
    var c, more := Like("name", "description", |args| + 1), [Text("%" + query + "%")];
    forall r ensures CondHolds(c, args + more, ToolSchema(like), r) <==> Searched(query, like)(r) {
      assert ArgAt(args + more, |args| + 1) == Some(more[0]);
    }
    Narrow(conds, args, c, more, ToolSchema(like), Searched(query, like));
  }

  method AddSearch(query: string, like: (string, string) -> bool, conds0: seq<Cond>, args0: seq<Arg>, argIdx0: int)
    returns (conds: seq<Cond>, args: seq<Arg>, argIdx: int)
    requires InRange(conds0, |args0|) && argIdx0 == |args0| + 1
    ensures Narrows(conds0, args0, conds, args, ToolSchema(like), Searched(query, like))
    ensures argIdx == |args| + 1
  {
    conds, args, argIdx := conds0, args0, argIdx0;
    if query != "" {
      var pattern := "%" + query + "%";
      conds := conds + [Like("name", "description", argIdx)];
      args := args + [Text(pattern)];
      argIdx := argIdx + 1;
      NarrowToSearch(conds0, args0, query, like);
    }
  }

  /** The cursor's condition and then the search's, their placeholders numbered by a running index. */
  method ToolConditions(query: string, bound: Option<Key>, like: (string, string) -> bool)
    returns (conds: seq<Cond>, args: seq<Arg>, argIdx: int)
    ensures Means(conds, args, ToolSchema(like), Wanting(Searched(query, like), bound))
    ensures argIdx == |args| + 1
  {
    var conds0, args0 := AddBound(bound, [], [], ToolSchema(like));
    conds, args, argIdx := AddSearch(query, like, conds0, args0, if bound.Some? then 3 else 1);
    BoundThenFilter(conds0, args0, conds, args, ToolSchema(like), Searched(query, like), bound);
  }

  /** The statement of the tool store: the limit takes the next number. */
  method ToolStatement(query: string, bound: Option<Key>, limit: int, like: (string, string) -> bool)
    returns (stmt: Statement)
    requires limit >= 1
    ensures Yields(stmt, ToolSchema(like), Searched(query, like), bound, limit + 1)
  {
    var conds, args, argIdx := ToolConditions(query, bound, like);
    stmt := Statement(conds, args + [Count(limit + 1)], argIdx);
    StatementYields(conds, args, ToolSchema(like), Searched(query, like), bound, limit + 1);
  }

  /** A listing, or search, of tools is the page of matching tools below the cursor. */
  method ListTools(table: seq<Row<ToolData>>, query: string, cursor: string, limit0: int, codec: TimeCodec,
                   like: (string, string) -> bool)
    returns (r: Result<Listed<ToolData>, CursorError>)
    requires GoodCodec(codec) && Distinct(table) && ByteIds(table)
    ensures r == ListPage(StoreStyle(codec), table, Searched(query, like), cursor, limit0)
    ensures Answers(r, Std, codec, cursor, table,
                    (row: Row<ToolData>) => query == "" || like(row.data.name, "%" + query + "%") ||
                                            like(row.data.description, "%" + query + "%"),
                    if limit0 <= 0 then 20 else limit0)
  {
    PageAnswers(Std, codec, 20, table, Searched(query, like),
                (row: Row<ToolData>) => query == "" || like(row.data.name, "%" + query + "%") ||
                                        like(row.data.description, "%" + query + "%"), cursor, limit0);
    var limit := limit0;
    if limit <= 0 { limit := 20; }
    var bound: Option<Key> := None;
    if cursor != "" {
      match DecodeCursor(Std, codec, cursor) {
        case Err(e) => return Err(e);
        case Ok((ts, id)) => bound := Some(Key(ts, id));
      }
    }
    var stmt := ToolStatement(query, bound, limit, like);
    var page := Finish(table, Searched(query, like), bound, Run(table, stmt, ToolSchema(like)), limit, Std, codec, 20);
    return Ok(page);
  }
}
