/**
 * The volunteer-registration routes of `registerVolunteerRegistrationRoutes`
 * over an in-memory `volunteer_registrations` table. Every route sits behind
 * the authentication gate, whose decision is an input here. Whether the
 * database is attached is fixed when the table object is made.
 */
module VolunteerRegistrations {
  import opened Js
  import opened Schema
  import opened Http

  /** The create payload: `grid_id` and `user_id`, both required, both
      strings of any length. */
  const CreateShape: Shape := [
    FieldSpec("grid_id", Str(0), true),
    FieldSpec("user_id", Str(0), true)
  ]

  predicate ValidRegistration(body: Json)
  {
    Conforms(body, CreateShape)
  }

  /** A create payload is accepted exactly when both references are strings;
      an empty string is a string. */
  lemma RegistrationAcceptance(body: Json)
    ensures ValidRegistration(body) <==>
              body.JObj? && "grid_id" in body.fields && body.fields["grid_id"].JStr?
              && "user_id" in body.fields && body.fields["user_id"].JStr?
  {
    var s := CreateShape;
    if ValidRegistration(body) {
      assert FieldOk(body.fields, s[0]) && FieldOk(body.fields, s[1]);
    }
  }

  /** `CreateSchema.safeParse(body)`: the two references, or the issues. */
  function ParseRegistration(body: Json): (r: Result<(string, string), seq<string>>)
    ensures r.Ok? <==> ValidRegistration(body)
    ensures r.Err? ==> r.error != [] && r.error == Check(body, CreateShape)
    ensures r.Ok? ==>
              body.JObj? && "grid_id" in body.fields && "user_id" in body.fields
              && body.fields["grid_id"] == JStr(r.value.0) && body.fields["user_id"] == JStr(r.value.1)
  {
    var issues := Check(body, CreateShape);
    if issues != [] then Err(issues)
    else
      RegistrationAcceptance(body);
      Ok((body.fields["grid_id"].s, body.fields["user_id"].s))
  }

  /** A stored row, keyed by its id in the table. */
  datatype Row = Row(grid_id: string, user_id: string, created_at: int)

  /** A row as `SELECT *` and `RETURNING *` give it, id included. */
  datatype Registration = Registration(id: string, grid_id: string, user_id: string, created_at: int)

  function Entry(id: string, row: Row): Registration
  {
    Registration(id, row.grid_id, row.user_id, row.created_at)
  }

  /** The rows of `rows` whose ids are in `ids`, as registrations. */
  ghost function Entries(rows: map<string, Row>, ids: set<string>): set<Registration>
  {
    set id | id in ids && id in rows :: Entry(id, rows[id])
  }

  /** `ORDER BY created_at DESC`. */
  predicate NewestFirst(s: seq<Registration>)
  {
    forall i, j :: 0 <= i < j < |s| ==> s[i].created_at >= s[j].created_at
  }

  /** Places `e` in a newest-first sequence, keeping it newest first. */
  function InsertNewestFirst(e: Registration, s: seq<Registration>): (r: seq<Registration>)
    requires NewestFirst(s)
    ensures NewestFirst(r)
    ensures multiset(r) == multiset(s) + multiset{e}
  {
    if s == [] || e.created_at >= s[0].created_at then
      [e] + s
    else
      var tail := s[1..];
      var rest := InsertNewestFirst(e, tail);
      assert multiset(s) == multiset{s[0]} + multiset(tail) by {
        assert s == [s[0]] + tail;
      }
      forall k | 0 <= k < |rest| ensures rest[k].created_at <= s[0].created_at {
        var x := rest[k];
        assert x in multiset(rest);
        if x != e {
          assert x in multiset(tail);
          var m :| 0 <= m < |tail| && tail[m] == x;
          assert x == s[m + 1];
        }
      }
      [s[0]] + rest
  }

  /** Adding the entry of a new id to a set of entries. */
  lemma EntriesGrow(rows: map<string, Row>, done: set<string>, id: string)
    requires id in rows && id !in done
    ensures Entries(rows, done + {id}) == Entries(rows, done) + {Entry(id, rows[id])}
    ensures Entry(id, rows[id]) !in Entries(rows, done)
  {
  }

  class RegistrationTable {
    /** The `volunteer_registrations` table, keyed by id. */
    var rows: map<string, Row>
    /** `app.hasDecorator('db')`. */
    const dbReady: bool

    constructor (dbReady: bool)
      ensures this.dbReady == dbReady && rows == map[]
    {
      this.dbReady := dbReady;
      rows := map[];
    }

    /** GET /volunteer-registrations. */
    method List(authenticated: bool) returns (reply: Reply<Registration>)
      ensures !authenticated ==> reply == Reply(401, Unauthenticated)
      ensures authenticated && !dbReady ==> reply == Reply(200, Records([]))
      ensures authenticated && dbReady ==>
                reply.status == 200 && reply.body.Records?
                && NewestFirst(reply.body.values)
                && multiset(reply.body.values) == multiset(Entries(rows, rows.Keys))
    {
      if !authenticated {
        return Reply(401, Unauthenticated);
      }
      if !dbReady {
        return Reply(200, Records([]));
      }
      var out: seq<Registration> := [];
      var todo := rows.Keys;
      while todo != {}
        invariant todo <= rows.Keys
        invariant NewestFirst(out)
        invariant multiset(out) == multiset(Entries(rows, rows.Keys - todo))
        decreases todo
      {
        var id :| id in todo;
        EntriesGrow(rows, rows.Keys - todo, id);
        assert rows.Keys - (todo - {id}) == (rows.Keys - todo) + {id};
        out := InsertNewestFirst(Entry(id, rows[id]), out);
        todo := todo - {id};
      }
      return Reply(200, Records(out));
    }

    /** POST /volunteer-registrations. `newId` is the generated UUID and `now`
        the time the store stamps on the new row. */
    method Create(authenticated: bool, body: Json, newId: string, now: int) returns (reply: Reply<Registration>)
      requires newId !in rows
      modifies this
      ensures !authenticated ==> reply == Reply(401, Unauthenticated) && rows == old(rows)
      ensures authenticated && !ValidRegistration(body) ==>
                reply.status == 400 && reply.body.Error? && reply.body.message == "Invalid payload"
                && reply.body.issues == Some(Check(body, CreateShape)) && reply.body.issues.value != []
                && rows == old(rows)
      ensures authenticated && ValidRegistration(body) && !dbReady ==>
                reply == Reply(503, Error("DB not ready", None)) && rows == old(rows)
      ensures authenticated && ValidRegistration(body) && dbReady ==>
                var (gridId, userId) := ParseRegistration(body).value;
                var reg := Registration(newId, gridId, userId, now);
                reply == Reply(201, Record(reg))
                && rows == old(rows)[newId := Row(reg.grid_id, reg.user_id, now)]
      ensures rows.Keys == old(rows.Keys) || rows.Keys == old(rows.Keys) + {newId}
      ensures forall id :: id in old(rows) ==> id in rows && rows[id] == old(rows)[id]
    {
      if !authenticated {
        return Reply(401, Unauthenticated);
      }
      var parsed := ParseRegistration(body);
      if parsed.Err? {
        return Reply(400, Error("Invalid payload", Some(parsed.error)));
      }
      if !dbReady {
        return Reply(503, Error("DB not ready", None));
      }
      var (gridId, userId) := parsed.value;
      var row := Row(gridId, userId, now);
      rows := rows[newId := row];
      return Reply(201, Record(Entry(newId, row)));
    }

    /** DELETE /volunteer-registrations/:id. */
    method Delete(authenticated: bool, id: string) returns (reply: Reply<Registration>)
      modifies this
      ensures !authenticated ==> reply == Reply(401, Unauthenticated) && rows == old(rows)
      ensures authenticated && !dbReady ==> reply == Reply(503, Error("DB not ready", None)) && rows == old(rows)
      ensures authenticated && dbReady ==> reply == Reply(204, Empty) && rows == old(rows) - {id}
      ensures id !in old(rows) ==> rows == old(rows)
    {
      if !authenticated {
        return Reply(401, Unauthenticated);
      }
      if !dbReady {
        return Reply(503, Error("DB not ready", None));
      }
      rows := rows - {id};
      return Reply(204, Empty);
    }
  }

  /** Deleting the same id twice answers 204 both times and leaves the table
      as the first delete left it. */
  method DeleteTwice(table: RegistrationTable, id: string) returns (first: Reply<Registration>, second: Reply<Registration>)
    requires table.dbReady
    modifies table
    ensures first == second == Reply(204, Empty)
    ensures table.rows == old(table.rows) - {id}
  {
    first := table.Delete(true, id);
    var afterFirst := table.rows;
    second := table.Delete(true, id);
    assert table.rows == afterFirst;
  }

  /** A registration created while the database is attached shows up in the
      next listing, exactly as the create reply returned it. */
  method CreateThenList(table: RegistrationTable, body: Json, newId: string, now: int)
    returns (created: Reply<Registration>, listed: Reply<Registration>)
    requires table.dbReady && ValidRegistration(body) && newId !in table.rows
    modifies table
    ensures created.status == 201 && created.body.Record?
    ensures listed.status == 200 && listed.body.Records? && created.body.value in listed.body.values
  {
    created := table.Create(true, body, newId, now);
    listed := table.List(true);
    var reg := created.body.value;
    assert reg == Entry(newId, table.rows[newId]);
    assert reg in Entries(table.rows, table.rows.Keys);
    assert reg in multiset(listed.body.values);
  }
}
