/** The one-time OAuth state nonces of credentials.go: `generateState` stores
    the Base64 text of 1024 random bytes in the `google_oauth_states` table,
    and `consumeState` looks a state up, deletes its row, and only then
    checks that it is at most five minutes old.  The two Google callbacks
    consume the state at different points. */
module OAuthState {
  import opened Wrappers
  import opened Base64

  const StateBytes: nat := 1024
  /** Five minutes, in seconds. */
  const StateLifetime: int := 300

  /** A row of `google_oauth_states`: serial id, state text, and `created_at` as text. */
  datatype Row = Row(id: nat, state: string, createdAt: string)

  // ---- generateState ----

  /** What `crypto/rand.Reader` delivers: the bytes it yields before it
      stops, and the error it stops with (`None` for end of stream). */
  datatype Reader = Reader(data: seq<byte>, err: Option<string>)

  /** io.ReadFull into a buffer of `n` bytes: the first `n` bytes if there
      are that many; otherwise the reader's own error, or "EOF" when nothing
      was read, or "unexpected EOF" when the stream ended part way. */
  function ReadFull(r: Reader, n: nat): (res: Result<seq<byte>>)
    ensures res.Success? <==> |r.data| >= n
    ensures res.Success? ==> |res.value| == n && res.value == r.data[..n]
  {
    if |r.data| >= n then Success(r.data[..n])
    else if r.err.Some? then Failure(r.err.value)
    else if |r.data| == 0 then Failure("EOF")
    else Failure("unexpected EOF")
  }

  /** The result of generateState and the table afterwards. */
  datatype Generated = Generated(state: string, err: Option<string>, rows: seq<Row>, nextId: nat)

  /** generateState on a table `rows` whose next serial id is `nextId`.
      `createdAt` is the text the database gives `created_at` on insert;
      `insertFailure` its error, if the insert fails. */
  function Generate(rows: seq<Row>, nextId: nat, random: Reader, createdAt: string, insertFailure: Option<string>): (g: Generated)
    ensures g.err.Some? <==> |random.data| < StateBytes || insertFailure.Some?
    ensures g.err.Some? ==> g.state == "" && g.rows == rows && g.nextId == nextId
    ensures g.err.None? ==> g.rows == rows + [Row(nextId, g.state, createdAt)] && g.nextId == nextId + 1
  {
    match ReadFull(random, StateBytes)
    case Failure(e) => Generated("", Some(e), rows, nextId)
    case Success(data) =>
      var s := Encode(data);
      if insertFailure.Some? then Generated("", insertFailure, rows, nextId)
      else Generated(s, None, rows + [Row(nextId, s, createdAt)], nextId + 1)
  }

  /** A generated state is the standard padded Base64 text of the first 1024
      random bytes: 1368 characters that decode back to exactly those bytes,
      and it is the state of the row just stored. */
  lemma GeneratedStateIsEncoding(rows: seq<Row>, nextId: nat, random: Reader, createdAt: string, insertFailure: Option<string>)
    requires Generate(rows, nextId, random, createdAt, insertFailure).err.None?
    ensures var g := Generate(rows, nextId, random, createdAt, insertFailure);
            && |random.data| >= StateBytes
            && g.state == Encode(random.data[..StateBytes])
            && |g.state| == 1368
            && Decode(g.state) == Some(random.data[..StateBytes])
            && g.rows[|g.rows| - 1].state == g.state
  {
    StateLength(random.data[..StateBytes]);
    DecodeEncode(random.data[..StateBytes]);
  }

  // ---- consumeState ----

  /** The position of the first row holding `state`. */
  function FirstWithState(rows: seq<Row>, state: string): (r: Option<nat>)
    ensures r.None? <==> forall i :: 0 <= i < |rows| ==> rows[i].state != state
    ensures r.Some? ==> r.value < |rows| && rows[r.value].state == state
    ensures r.Some? ==> forall i :: 0 <= i < r.value ==> rows[i].state != state
  {
    if rows == [] then None
    else if rows[0].state == state then Some(0)
    else match FirstWithState(rows[1..], state)
      case None => None
      case Some(k) => Some(k + 1)
  }

  /** The table after `DELETE ... WHERE id = $1`. */
  function WithoutId(rows: seq<Row>, id: nat): (r: seq<Row>)
    ensures forall i :: 0 <= i < |r| ==> r[i].id != id
    ensures forall i :: 0 <= i < |rows| && rows[i].id != id ==> rows[i] in r
    ensures forall row :: row in r ==> row in rows
    decreases |rows|
  {
    if rows == [] then []
    else
      var rest := WithoutId(rows[..|rows| - 1], id);
      var last := rows[|rows| - 1];
      if last.id == id then rest else rest + [last]
  }

  /** What consumeState learns from outside: the database's error on the
      select or the delete (if any), `time.Parse(time.DateTime, ...)` in
      seconds, and the current time in seconds. */
  datatype Environment = Environment(scanFailure: Option<string>, deleteFailure: Option<string>,
                                     parseTime: string -> Result<int>, now: int)

  const NoRows: string := "sql: no rows in result set"

  /** consumeState: the error (`None` for nil) and the table afterwards. */
  function Consume(rows: seq<Row>, state: string, env: Environment): (r: (Option<string>, seq<Row>))
    ensures forall row :: row in r.1 ==> row in rows
    ensures r.0.None? ==> Found(rows, state, env).Some? && Found(rows, state, env).value !in r.1
  {
    if env.scanFailure.Some? then (Some("cannot scan row: " + env.scanFailure.value), rows)
    else match FirstWithState(rows, state)
      case None => (Some("cannot scan row: " + NoRows), rows)
      case Some(k) =>
        var row := rows[k];
        if row.id == 0 then (Some("state not found"), rows)
        else if env.deleteFailure.Some? then (Some("cannot delete state: " + env.deleteFailure.value), rows)
        else
          var rest := WithoutId(rows, row.id);
          match env.parseTime(row.createdAt)
          case Failure(e) => (Some("cannot parse created_at: " + e), rest)
          case Success(createdAt) =>
            if env.now - createdAt > StateLifetime then (Some("state expired"), rest) else (None, rest)
  }

  /** The row consumeState finds, if the select succeeds. */
  function Found(rows: seq<Row>, state: string, env: Environment): Option<Row> {
    if env.scanFailure.Some? then None
    else match FirstWithState(rows, state)
      case None => None
      case Some(k) => Some(rows[k])
  }

  /** consumeState returns nil exactly when the state was found with a
      non-zero id, its row was deleted, its `created_at` parsed, and it is at
      most five minutes old; a state not found deletes nothing. */
  lemma ConsumeSucceedsExactly(rows: seq<Row>, state: string, env: Environment)
    ensures var (err, after) := Consume(rows, state, env);
            var found := Found(rows, state, env);
            && (err.None? <==>
                  && found.Some? && found.value.id != 0 && env.deleteFailure.None?
                  && env.parseTime(found.value.createdAt).Success?
                  && env.now - env.parseTime(found.value.createdAt).value <= StateLifetime)
            && (found.None? || found.value.id == 0 || env.deleteFailure.Some? ==> err.Some? && after == rows)
            && (found.Some? && found.value.id != 0 && env.deleteFailure.None? ==> after == WithoutId(rows, found.value.id))
  {
  }

  /** The row is deleted before its age is looked at: a state that is too
      old, or whose `created_at` does not parse, is gone all the same. */
  lemma DeletedBeforeExpiryCheck(rows: seq<Row>, state: string, env: Environment)
    requires Found(rows, state, env).Some? && Found(rows, state, env).value.id != 0 && env.deleteFailure.None?
    ensures var (err, after) := Consume(rows, state, env);
            var row := Found(rows, state, env).value;
            && row !in after
            && (env.parseTime(row.createdAt).Failure? ==> err.Some?)
            && (env.parseTime(row.createdAt).Success? ==>
                  (err == Some("state expired") <==> env.now - env.parseTime(row.createdAt).value > StateLifetime))
  {
  }

  /** Exactly five minutes is still accepted; a second more is expired. */
  lemma ExpiryBoundary(rows: seq<Row>, state: string, env: Environment)
    requires Found(rows, state, env).Some? && Found(rows, state, env).value.id != 0 && env.deleteFailure.None?
    requires env.parseTime(Found(rows, state, env).value.createdAt).Success?
    ensures var age := env.now - env.parseTime(Found(rows, state, env).value.createdAt).value;
            && (age == StateLifetime ==> Consume(rows, state, env).0 == None)
            && (age == StateLifetime + 1 ==> Consume(rows, state, env).0 == Some("state expired"))
  {
  }

  /** A state held by one row only is single use: once its row has been
      deleted, a second consume fails whatever else happens. */
  lemma {:induction false} SecondConsumeFails(rows: seq<Row>, state: string, first: Environment, second: Environment)
    requires forall i, j :: 0 <= i < |rows| && 0 <= j < |rows| && rows[i].state == state && rows[j].state == state ==> i == j
    requires Found(rows, state, first).Some? && Found(rows, state, first).value.id != 0 && first.deleteFailure.None?
    ensures var after := Consume(rows, state, first).1;
            && Consume(after, state, second).0.Some?
            && Consume(after, state, second).1 == after
  {
    var k := FirstWithState(rows, state).value;
    var after := Consume(rows, state, first).1;
    assert after == WithoutId(rows, rows[k].id);
    forall i | 0 <= i < |after|
      ensures after[i].state != state
    {
      assert after[i] in rows;
      var j :| 0 <= j < |rows| && rows[j] == after[i];
    }
  }

  /** The `google_oauth_states` table. */
  class StateTable {
    var rows: seq<Row>
    var nextId: nat

    constructor ()
      ensures rows == [] && nextId == 1
    {
      rows := [];
      nextId := 1;
    }

    /** `SELECT id, created_at ... WHERE state = $1` with `QueryRow`: the
        first row holding the state. */
    method Select(state: string) returns (found: Option<nat>)
      ensures found == FirstWithState(rows, state)
    {
      var i := 0;
      while i < |rows|
        invariant i <= |rows|
        invariant forall k :: 0 <= k < i ==> rows[k].state != state
      {
        if rows[i].state == state {
          return Some(i);
        }
        i := i + 1;
      }
      return None;
    }

    /** `DELETE FROM google_oauth_states WHERE id = $1`. */
    method Delete(id: nat)
      modifies this
      ensures rows == WithoutId(old(rows), id) && nextId == old(nextId)
    {
      var kept := [];
      for i := 0 to |rows|
        invariant kept == WithoutId(rows[..i], id)
      {
        assert rows[..i + 1][..i] == rows[..i];
        if rows[i].id != id {
          kept := kept + [rows[i]];
        }
      }
      assert rows[..|rows|] == rows;
      rows := kept;
    }

    /** generateState */
    method GenerateState(random: Reader, createdAt: string, insertFailure: Option<string>)
      returns (state: string, err: Option<string>)
      modifies this
      ensures Generated(state, err, rows, nextId) == Generate(old(rows), old(nextId), random, createdAt, insertFailure)
    {
      var data := ReadFull(random, StateBytes);
      if data.Failure? {
        return "", Some(data.error);
      }
      var s := Encode(data.value);
      if insertFailure.Some? {
        return "", insertFailure;
      }
      rows := rows + [Row(nextId, s, createdAt)];
      nextId := nextId + 1;
      return s, None;
    }

    /** consumeState */
    method ConsumeState(state: string, env: Environment) returns (err: Option<string>)
      modifies this
      ensures (err, rows) == Consume(old(rows), state, env) && nextId == old(nextId)
    {
      if env.scanFailure.Some? {
        return Some("cannot scan row: " + env.scanFailure.value);
      }
      var found := Select(state);
      if found.None? {
        return Some("cannot scan row: " + NoRows);
      }
      var id, createdAtStr := rows[found.value].id, rows[found.value].createdAt;
      if id == 0 {
        return Some("state not found");
      }
      if env.deleteFailure.Some? {
        return Some("cannot delete state: " + env.deleteFailure.value);
      }
      Delete(id);
      var createdAt := env.parseTime(createdAtStr);
      if createdAt.Failure? {
        return Some("cannot parse created_at: " + createdAt.error);
      }
      if env.now - createdAt.value > StateLifetime {
        return Some("state expired");
      }
      return None;
    }

    /** The /login/google and /register/google handlers, which differ only
        in the OAuth configuration the consent URL is built from: a fresh
        state, then 301 to the consent page with it, or 500 when no state
        could be made. */
    method Authorize(random: Reader, createdAt: string, insertFailure: Option<string>)
      returns (result: CallbackResult)
      modifies this
      ensures var g := Generate(old(rows), old(nextId), random, createdAt, insertFailure);
              && rows == g.rows && nextId == g.nextId
              && result == if g.err.Some? then Status(500) else Redirect(g.state)
    {
      var state, err := GenerateState(random, createdAt, insertFailure);
      if err.Some? {
        return Status(500);
      }
      return Redirect(state);
    }

    /** The /login/google/callback handler up to the user-info lookup: the
        state is consumed and the code exchanged BEFORE the method is checked,
        so a non-GET callback burns a good state and then gets 405. */
    method LoginCallback(httpMethod: string, state: string, env: Environment, exchangeFailure: Option<string>)
      returns (result: CallbackResult)
      modifies this
      ensures rows == Consume(old(rows), state, env).1 && nextId == old(nextId)
      ensures Consume(old(rows), state, env).0.Some? ==> result == Status(500)
      ensures Consume(old(rows), state, env).0.None? && exchangeFailure.Some? ==> result == Status(500)
      ensures Consume(old(rows), state, env).0.None? && exchangeFailure.None? ==>
                result == if httpMethod != "GET" then Status(405) else ProceedsToUserInfo
    {
      var err := ConsumeState(state, env);
      if err.Some? {
        return Status(500);
      }
      if exchangeFailure.Some? {
        return Status(500);
      }
      if httpMethod != "GET" {
        return Status(405);
      }
      return ProceedsToUserInfo;
    }

    /** The /register/google/callback handler up to the user-info lookup:
        the method is checked first, so a non-GET callback leaves the table
        untouched. */
    method RegisterCallback(httpMethod: string, state: string, env: Environment, exchangeFailure: Option<string>)
      returns (result: CallbackResult)
      modifies this
      ensures httpMethod != "GET" ==> result == Status(405) && rows == old(rows)
      ensures httpMethod == "GET" ==> rows == Consume(old(rows), state, env).1
      ensures httpMethod == "GET" ==>
                result == if Consume(old(rows), state, env).0.Some? || exchangeFailure.Some? then Status(500) else ProceedsToUserInfo
      ensures nextId == old(nextId)
    {
      if httpMethod != "GET" {
        return Status(405);
      }
      var err := ConsumeState(state, env);
      if err.Some? {
        return Status(500);
      }
      if exchangeFailure.Some? {
        return Status(500);
      }
      return ProceedsToUserInfo;
    }
  }

  /** How a handler ends: a bare status, a 301 to Google's consent page
      carrying the state, or (for a callback) on to the user-info lookup. */
  datatype CallbackResult = Status(code: nat) | Redirect(state: string) | ProceedsToUserInfo
}
