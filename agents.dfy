/**
 * `/api/agents`: the `agentSchema` validation with its defaults, POST that
 * stores a validated agent owned by the caller, and GET that lists the
 * caller's agents newest first.
 */
module Agents {
  import opened Wrappers
  import opened Js
  import opened Http

  /** A JSON value as far as the schema looks at it; `Undefined` is a missing key. */
  datatype Json = Undefined | Null | Bool(b: bool) | Number(n: real) | Str(s: string) | Compound

  /** The request body, field by field in the schema's order. */
  datatype AgentBody = AgentBody(name: Json, description: Json, systemPrompt: Json,
                                 model: Json, provider: Json, temperature: Json)

  /** What `agentSchema.parse` returns. */
  datatype ValidAgent = ValidAgent(name: string, description: Option<string>, systemPrompt: Option<string>,
                                   model: string, provider: string, temperature: real)

  /** A stored agent row. */
  datatype AgentRow = AgentRow(id: nat, userId: UserId, name: string, description: Option<string>,
                               systemPrompt: Option<string>, model: string, provider: string,
                               temperature: real, isActive: bool, createdAt: nat)

  const DefaultModel: string := "gpt-4o"
  const DefaultProvider: string := "openai"
  const DefaultTemperature: real := 0.7

  /** `z.string().min(1, 'Name is required')` */
  function NameField(j: Json): (r: Result<string, string>)
    ensures r.Success? <==> j.Str? && j.s != ""
    ensures r.Success? ==> r.value == j.s
    ensures j == Str("") ==> r == Failure("Name is required")
  {
    match j
    case Str(s) => if |s| >= 1 then Success(s) else Failure("Name is required")
    case Undefined => Failure("Required")
    case _ => Failure("Expected string")
  }

  /** `z.string().optional()`: a missing key is `None`; `null` is not accepted. */
  function OptionalString(j: Json): (r: Result<Option<string>, string>)
    ensures r.Success? <==> j.Undefined? || j.Str?
    ensures r.Success? ==> r.value == (if j.Str? then Some(j.s) else None)
  {
    match j
    case Undefined => Success(None)
    case Str(s) => Success(Some(s))
    case _ => Failure("Expected string")
  }

  /** `z.string().default(d)`: a missing key takes `d`; an empty string is kept. */
  function StringOrDefault(j: Json, d: string): (r: Result<string, string>)
    ensures r.Success? <==> j.Undefined? || j.Str?
    ensures r.Success? ==> r.value == (if j.Str? then j.s else d)
  {
    match j
    case Undefined => Success(d)
    case Str(s) => Success(s)
    case _ => Failure("Expected string")
  }

  /** `z.number().min(0).max(1).default(0.7)` */
  function TemperatureField(j: Json): (r: Result<real, string>)
    ensures r.Success? <==> j.Undefined? || (j.Number? && 0.0 <= j.n <= 1.0)
    ensures r.Success? ==> r.value == (if j.Number? then j.n else DefaultTemperature)
  {
    match j
    case Undefined => Success(DefaultTemperature)
    case Number(x) =>
      if x < 0.0 then Failure("Number must be greater than or equal to 0")
      else if x > 1.0 then Failure("Number must be less than or equal to 1")
      else Success(x)
    case _ => Failure("Expected number")
  }

  /** Every field of the body is one the schema accepts. */
  predicate Acceptable(body: AgentBody) {
    && body.name.Str? && body.name.s != ""
    && (body.description.Undefined? || body.description.Str?)
    && (body.systemPrompt.Undefined? || body.systemPrompt.Str?)
    && (body.model.Undefined? || body.model.Str?)
    && (body.provider.Undefined? || body.provider.Str?)
    && (body.temperature.Undefined? || (body.temperature.Number? && 0.0 <= body.temperature.n <= 1.0))
  }

  /**
   * `agentSchema.parse(body)`: the parsed agent, or the message of the first
   * field (in schema order) that fails.
   */
  function Validate(body: AgentBody): (r: Result<ValidAgent, string>)
    ensures r.Success? <==> Acceptable(body)
    ensures r.Success? ==> r.value.name == body.name.s && 0.0 <= r.value.temperature <= 1.0
    ensures body.name == Str("") ==> r == Failure("Name is required")
  {
    var name :- NameField(body.name);
    var description :- OptionalString(body.description);
    var systemPrompt :- OptionalString(body.systemPrompt);
    var model :- StringOrDefault(body.model, DefaultModel);
    var provider :- StringOrDefault(body.provider, DefaultProvider);
    var temperature :- TemperatureField(body.temperature);
    Success(ValidAgent(name, description, systemPrompt, model, provider, temperature))
  }

  /** Validation succeeds exactly on acceptable bodies, and then carries their values or the defaults. */
  lemma ValidateAccepts(body: AgentBody)
    ensures Validate(body).Success? <==> Acceptable(body)
    ensures Validate(body).Success? ==>
      var v := Validate(body).value;
      && v.name == body.name.s
      && v.description == (if body.description.Str? then Some(body.description.s) else None)
      && v.systemPrompt == (if body.systemPrompt.Str? then Some(body.systemPrompt.s) else None)
      && v.model == (if body.model.Str? then body.model.s else DefaultModel)
      && v.provider == (if body.provider.Str? then body.provider.s else DefaultProvider)
      && v.temperature == (if body.temperature.Number? then body.temperature.n else DefaultTemperature)
  {
  }

  /** Whatever the other fields hold, a temperature below 0 or above 1 is rejected. */
  lemma TemperatureOutOfRange(body: AgentBody, t: real)
    requires t < 0.0 || t > 1.0
    ensures Validate(body.(temperature := Number(t))).Failure?
  {
    ValidateAccepts(body.(temperature := Number(t)));
  }

  /** The bounds are inclusive: a body the schema accepts still passes with temperature exactly 0 or 1. */
  lemma TemperatureBoundsAccepted(body: AgentBody)
    requires Acceptable(body.(temperature := Undefined))
    ensures Validate(body.(temperature := Number(0.0))) ==
      Success(Validate(body.(temperature := Undefined)).value.(temperature := 0.0))
    ensures Validate(body.(temperature := Number(1.0))) ==
      Success(Validate(body.(temperature := Undefined)).value.(temperature := 1.0))
  {
    ValidateAccepts(body.(temperature := Undefined));
    ValidateAccepts(body.(temperature := Number(0.0)));
    ValidateAccepts(body.(temperature := Number(1.0)));
  }

  /** The row `prisma.agent.create` stores; empty description or prompt become null. */
  function NewRow(user: UserId, v: ValidAgent, id: nat, now: nat): (row: AgentRow)
    ensures row.userId == user && row.id == id && row.createdAt == now
    ensures row.name == v.name && row.model == v.model && row.provider == v.provider
    ensures row.temperature == v.temperature
    ensures row.description == OrNull(v.description) && row.systemPrompt == OrNull(v.systemPrompt)
  {
    AgentRow(id, user, v.name, OrNull(v.description), OrNull(v.systemPrompt), v.model, v.provider,
             v.temperature, true, now)
  }

  /** The rows owned by `user`, in table order. */
  function Owned(rows: seq<AgentRow>, user: UserId): (r: seq<AgentRow>)
    ensures forall a :: a in r ==> a.userId == user
    ensures multiset(r) <= multiset(rows)
    ensures forall a :: a in rows && a.userId == user ==> multiset(r)[a] == multiset(rows)[a]
  {
    if rows == [] then []
    else
      assert rows == [rows[0]] + rows[1..];
      if rows[0].userId == user then [rows[0]] + Owned(rows[1..], user)
      else Owned(rows[1..], user)
  }

  /** Newest first: `createdAt` never increases along the sequence. */
  predicate NewestFirst(rows: seq<AgentRow>) {
    forall i, j :: 0 <= i < j < |rows| ==> rows[i].createdAt >= rows[j].createdAt
  }

  /** A row at least as new as every row of a newest-first sequence may go in front of it. */
  lemma PrependNewest(x: AgentRow, rest: seq<AgentRow>)
    requires NewestFirst(rest)
    requires forall b :: b in rest ==> x.createdAt >= b.createdAt
    ensures NewestFirst([x] + rest)
  {
    var r := [x] + rest;
    forall i, j | 0 <= i < j < |r| ensures r[i].createdAt >= r[j].createdAt {
      if i == 0 {
        assert r[j] in rest;
      } else {
        assert r[i] == rest[i - 1] && r[j] == rest[j - 1];
      }
    }
  }

  /** The first row of a newest-first sequence is at least as new as every later one. */
  lemma HeadIsNewest(rows: seq<AgentRow>)
    requires NewestFirst(rows) && rows != []
    ensures forall b :: b in rows[1..] ==> rows[0].createdAt >= b.createdAt
  {
    forall b | b in rows[1..] ensures rows[0].createdAt >= b.createdAt {
      var k :| 0 <= k < |rows[1..]| && rows[1..][k] == b;
      assert rows[k + 1] == b;
    }
  }

  /** Place `a` before the first row that is not newer than it. */
  function InsertByDate(a: AgentRow, rows: seq<AgentRow>): (r: seq<AgentRow>)
    requires NewestFirst(rows)
    ensures NewestFirst(r)
    ensures multiset(r) == multiset(rows) + multiset{a}
  {
    if rows == [] || rows[0].createdAt <= a.createdAt then
      PrependNewest(a, rows);
      [a] + rows
    else
      var tail := rows[1..];
      assert rows == [rows[0]] + tail;
      var rest := InsertByDate(a, tail);
      assert forall b :: b in rest ==> rows[0].createdAt >= b.createdAt by {
        HeadIsNewest(rows);
        forall b | b in rest ensures b == a || b in tail {
          assert b in multiset(rest);
        }
      }
      PrependNewest(rows[0], rest);
      [rows[0]] + rest
  }

  /** `orderBy: { createdAt: 'desc' }`, as an insertion sort. */
  function SortNewestFirst(rows: seq<AgentRow>): (r: seq<AgentRow>)
    ensures NewestFirst(r)
    ensures multiset(r) == multiset(rows)
  {
    if rows == [] then []
    else
      assert rows == [rows[0]] + rows[1..];
      InsertByDate(rows[0], SortNewestFirst(rows[1..]))
  }

  /** Every id is below the next one to hand out, and no two rows share one. */
  ghost predicate IdsFresh(rows: seq<AgentRow>, nextId: nat) {
    && (forall i :: 0 <= i < |rows| ==> rows[i].id < nextId)
    && (forall i, j :: 0 <= i < j < |rows| ==> rows[i].id != rows[j].id)
  }

  class AgentTable {
    var rows: seq<AgentRow>
    var nextId: nat

    ghost predicate Valid()
      reads this
    {
      IdsFresh(rows, nextId)
    }

    constructor ()
      ensures Valid() && rows == []
    {
      rows := [];
      nextId := 0;
    }

    /** GET: exactly the caller's agents, newest first. */
    function Get(session: Option<UserId>): (r: Response<seq<AgentRow>>)
      reads this
      ensures !SignedIn(session) ==> r == Error(401, "Unauthorized")
      ensures SignedIn(session) ==> r.Ok? && NewestFirst(r.body)
      ensures SignedIn(session) ==> forall a :: a in r.body ==> a.userId == session.value && a in rows
      ensures SignedIn(session) ==> forall a :: a in rows && a.userId == session.value ==>
        multiset(r.body)[a] == multiset(rows)[a]
    {
      if !SignedIn(session) then Unauthorized()
      else
        var owned := Owned(rows, session.value);
        var sorted := SortNewestFirst(owned);
        assert forall a :: a in sorted ==> a in owned by {
          forall a | a in sorted ensures a in owned {
            assert a in multiset(sorted);
          }
        }
        assert forall a :: a in owned ==> a in rows by {
          forall a | a in owned ensures a in rows {
            assert a in multiset(owned);
          }
        }
        Ok(sorted)
    }

    /** POST: validate the body, then append one agent owned by the caller. */
    method Post(session: Option<UserId>, body: AgentBody, now: nat) returns (r: Response<AgentRow>)
      requires Valid()
      modifies this
      ensures Valid()
      ensures !SignedIn(session) ==> r == Error(401, "Unauthorized") && rows == old(rows)
      ensures SignedIn(session) && Validate(body).Failure? ==>
        r == Error(400, Validate(body).error) && rows == old(rows)
      ensures SignedIn(session) && Validate(body).Success? ==>
        r == Ok(NewRow(session.value, Validate(body).value, old(nextId), now)) &&
        rows == old(rows) + [r.body]
    {
      if !SignedIn(session) {
        return Unauthorized();
      }
      var parsed := Validate(body);
      if parsed.Failure? {
        return Error(400, parsed.error);
      }
      var row := NewRow(session.value, parsed.value, nextId, now);
      rows := rows + [row];
      nextId := nextId + 1;
      r := Ok(row);
    }
  }
}
