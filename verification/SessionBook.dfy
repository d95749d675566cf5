/** What a session is, as the sequence of operations on the store says: no cache, no tables. */
module SessionBook {
  import opened Text
  import opened Steering

  /** One row of the raw log. */
  datatype LogRow = LogRow(role: string, content: string)

  datatype Op =
    | Touch(id: string)
    | Append(id: string, messages: seq<Message>)
    | Compact(id: string, messages: seq<Message>)
    | RecordRun(id: string, run: string)
    | Reset(id: string)
    | Read(id: string)
    | Create(id: string, name: string)
    | Rename(id: string, name: string)
    | AutoTitle(id: string, name: string)
    | Delete(id: string)
    | Restart

  /** Working set, runs, raw log, and the display name if the session has a row. */
  datatype Book = Book(conversation: seq<Message>, runs: seq<string>, log: seq<LogRow>, name: Option<string>)

  const BLANK := Book([], [], [], None)

  predicate Ephemeral(id: string) {
    "__" <= id
  }

  /** Is this session kept in the database? */
  predicate Kept(durable: bool, id: string) {
    durable && !Ephemeral(id)
  }

  /** Sessions of the engine's own, whose ids begin with two underscores, are never kept. */
  lemma KeptIs(durable: bool, id: string)
    ensures Kept(durable, id) <==> durable && !(|id| >= 2 && id[0] == '_' && id[1] == '_')
  {
    if |id| >= 2 && id[0] == '_' && id[1] == '_' { assert id[..2] == "__"; }
  }

  /** The log row of a message; what is not a string is dumped as JSON. */
  function Logged(m: Message, json: Content -> string): LogRow {
    LogRow(m.role, if m.content.Plain? then m.content.text else json(m.content))
  }

  function LoggedAll(messages: seq<Message>, json: Content -> string): (r: seq<LogRow>)
    ensures |r| == |messages|
  {
    seq(|messages|, k requires 0 <= k < |messages| => Logged(messages[k], json))
  }

  /** The session has a row from now on, if it is kept; its name is its id until it is given one. */
  function Rowed(b: Book, id: string, kept: bool): Book {
    if kept && b.name.None? then b.(name := Some(id)) else b
  }

  function Turn(b: Book, op: Op, id: string, kept: bool, json: Content -> string): Book {
    if op.Restart? then (if kept then b else BLANK)
    else if op.id != id then b
    else match op
      case Touch(_) => Rowed(b, id, kept)
      case Append(_, messages) =>
        var r := Rowed(b, id, kept);
        r.(conversation := r.conversation + messages, log := if kept then r.log + LoggedAll(messages, json) else r.log)
      case Compact(_, messages) => Rowed(b, id, kept).(conversation := messages)
      case RecordRun(_, run) => Rowed(b, id, kept).(runs := b.runs + [run])
      case Reset(_) => Rowed(b, id, kept).(conversation := [])
      case Read(_) => b
      case Create(_, name) => Book([], [], b.log, if kept then Some(if name == "" then id else name) else None)
      case Rename(_, name) => if b.name.Some? then b.(name := Some(name)) else b
      case AutoTitle(_, name) => if b.name == Some(id) then b.(name := Some(name)) else b
      case Delete(_) => BLANK
  }

  function After(ops: seq<Op>, id: string, kept: bool, json: Content -> string): Book {
    if ops == [] then BLANK
    else Turn(After(ops[..|ops| - 1], id, kept, json), ops[|ops| - 1], id, kept, json)
  }

  lemma AfterSnoc(ops: seq<Op>, op: Op, id: string, kept: bool, json: Content -> string)
    ensures After(ops + [op], id, kept, json) == Turn(After(ops, id, kept, json), op, id, kept, json)
  {
    assert (ops + [op])[..|ops|] == ops;
  }

  /** A session without a row has nothing; one that is not kept has no row and no log. */
  lemma {:induction false} NothingWithoutRow(ops: seq<Op>, id: string, kept: bool, json: Content -> string)
    ensures kept && After(ops, id, kept, json).name.None? ==> After(ops, id, kept, json) == BLANK
    ensures !kept ==> After(ops, id, kept, json).name.None? && After(ops, id, kept, json).log == []
    decreases |ops|
  {
    if ops != [] { NothingWithoutRow(ops[..|ops| - 1], id, kept, json); }
  }

  // ---- restarts --------------------------------------------------------------------------

  function WithoutRestarts(ops: seq<Op>): seq<Op> {
    if ops == [] then []
    else WithoutRestarts(ops[..|ops| - 1]) + if ops[|ops| - 1].Restart? then [] else [ops[|ops| - 1]]
  }

  /** Restarting, as often as one likes and at any moment, is invisible in a kept session. */
  lemma {:induction false} RestartsInvisible(ops: seq<Op>, id: string, json: Content -> string)
    ensures After(ops, id, true, json) == After(WithoutRestarts(ops), id, true, json)
    decreases |ops|
  {
    if ops != [] {
      var init, op := ops[..|ops| - 1], ops[|ops| - 1];
      RestartsInvisible(init, id, json);
      if op.Restart? {
        assert WithoutRestarts(ops) == WithoutRestarts(init);
      } else {
        AfterSnoc(WithoutRestarts(init), op, id, true, json);
      }
    }
  }

  // ---- the raw log ---------------------------------------------------------------------------

  /** Every message ever appended to the session since it was last deleted, in order. */
  function Appended(ops: seq<Op>, id: string): seq<Message> {
    if ops == [] then []
    else
      var before := Appended(ops[..|ops| - 1], id);
      match ops[|ops| - 1]
      case Append(i, messages) => if i == id then before + messages else before
      case Delete(i) => if i == id then [] else before
      case _ => before
  }

  /** The raw log holds exactly these, whatever compaction, reset or restart did to the working set. */
  lemma {:induction false} LogIsComplete(ops: seq<Op>, id: string, json: Content -> string)
    ensures After(ops, id, true, json).log == LoggedAll(Appended(ops, id), json)
    decreases |ops|
  {
    if ops != [] {
      var init, op := ops[..|ops| - 1], ops[|ops| - 1];
      LogIsComplete(init, id, json);
      if op.Append? && op.id == id {
        assert LoggedAll(Appended(init, id) + op.messages, json)
            == LoggedAll(Appended(init, id), json) + LoggedAll(op.messages, json);
      }
    }
  }

  /** So row k of the log has the role of the k-th of these messages, and its text, or its JSON if its content
      is no string. */
  lemma RowSays(ops: seq<Op>, id: string, json: Content -> string, k: nat)
    ensures |After(ops, id, true, json).log| == |Appended(ops, id)|
    ensures k < |Appended(ops, id)| ==>
      var row, m := After(ops, id, true, json).log[k], Appended(ops, id)[k];
      && row.role == m.role
      && (m.content.Plain? ==> row.content == m.content.text)
      && (m.content.Other? ==> row.content == json(m.content))
  {
    LogIsComplete(ops, id, json);
  }

  /** Until something rewrites the working set, it is what was appended. */
  lemma {:induction false} ConversationIsAppended(ops: seq<Op>, id: string, json: Content -> string)
    requires forall k :: 0 <= k < |ops| && !ops[k].Restart? && ops[k].id == id ==>
               !ops[k].Compact? && !ops[k].Reset? && !ops[k].Create?
    ensures After(ops, id, true, json).conversation == Appended(ops, id)
    decreases |ops|
  {
    if ops != [] { ConversationIsAppended(ops[..|ops| - 1], id, json); }
  }

  /** What the working set is after the last operation that rewrote it. */
  lemma {:induction false} ConversationSinceRewrite(ops: seq<Op>, fresh': Op, later: seq<Op>, id: string, json: Content -> string)
    requires (fresh'.Compact? || fresh'.Reset?) && fresh'.id == id
    requires forall k :: 0 <= k < |later| && !later[k].Restart? && later[k].id == id ==>
               !later[k].Compact? && !later[k].Reset? && !later[k].Create? && !later[k].Delete?
    ensures After(ops + [fresh'] + later, id, true, json).conversation ==
      (if fresh'.Compact? then fresh'.messages else []) + Appended(later, id)
    decreases |later|
  {
    hide LoggedAll;
    hide After;
    if later == [] {
      assert ops + [fresh'] + later == ops + [fresh'];
      AfterSnoc(ops, fresh', id, true, json);
    } else {
      var init, op := later[..|later| - 1], later[|later| - 1];
      ConversationSinceRewrite(ops, fresh', init, id, json);
      assert ops + [fresh'] + later == (ops + [fresh'] + init) + [op];
      AfterSnoc(ops + [fresh'] + init, op, id, true, json);
    }
  }

  // ---- names -----------------------------------------------------------------------------------

  /** A name a person gave is never replaced by an automatic title. */
  lemma {:induction false} ManualNameWins(ops: seq<Op>, id: string, name: string, later: seq<Op>, json: Content -> string)
    requires After(ops, id, true, json).name.Some? && name != id
    requires forall k :: 0 <= k < |later| && !later[k].Restart? && later[k].id == id ==>
               !later[k].Rename? && !later[k].Create? && !later[k].Delete?
    ensures After(ops + [Rename(id, name)] + later, id, true, json).name == Some(name)
    decreases |later|
  {
    if later == [] {
      assert ops + [Rename(id, name)] + later == ops + [Rename(id, name)];
      AfterSnoc(ops, Rename(id, name), id, true, json);
    } else {
      var init, op := later[..|later| - 1], later[|later| - 1];
      ManualNameWins(ops, id, name, init, json);
      assert ops + [Rename(id, name)] + later == (ops + [Rename(id, name)] + init) + [op];
      AfterSnoc(ops + [Rename(id, name)] + init, op, id, true, json);
    }
  }

  // ---- pages -------------------------------------------------------------------------------------

  function Clamp(limit: int): nat {
    if limit > 1000 then 1000 else if limit < 1 then 1 else limit
  }

  function Page<T>(rows: seq<T>, limit: int, offset: int): seq<T> {
    var from := if offset < 0 then 0 else if offset > |rows| then |rows| else offset;
    rows[from..if from + Clamp(limit) > |rows| then |rows| else from + Clamp(limit)]
  }

  function Pages<T>(rows: seq<T>, limit: int, count: nat): seq<T> {
    if count == 0 then [] else Pages(rows, limit, count - 1) + Page(rows, limit, (count - 1) * Clamp(limit))
  }

  lemma NextPage<T>(rows: seq<T>, limit: int, from: nat)
    ensures (if from > |rows| then rows else rows[..from]) + Page(rows, limit, from)
         == if from + Clamp(limit) > |rows| then rows else rows[..from + Clamp(limit)]
  {
  }

  /** A page holds the rows from `offset` on, at most 1000 of them, at least one if there is one; a negative
      offset counts as none, a limit below one as one. */
  lemma PageIs<T>(rows: seq<T>, limit: int, offset: int, k: nat)
    ensures var from := if offset < 0 then 0 else offset;
            var most := if limit < 1 then 1 else if limit > 1000 then 1000 else limit;
            var left := if from > |rows| then 0 else |rows| - from;
            && |Page(rows, limit, offset)| == (if left > most then most else left)
            && (k < |Page(rows, limit, offset)| ==> Page(rows, limit, offset)[k] == rows[from + k])
  {
  }

  /** Pages read one after the other are the log, up to where they reach. */
  lemma {:induction false} PagesConcatenate<T>(rows: seq<T>, limit: int, count: nat)
    ensures Pages(rows, limit, count) == if count * Clamp(limit) > |rows| then rows else rows[..count * Clamp(limit)]
  {
    if count > 0 {
      PagesConcatenate(rows, limit, count - 1);
      var c := Clamp(limit);
      var from := (count - 1) * c;
      assert c > 0 && count * c == from + c;
      hide Clamp;
      NextPage(rows, limit, from);
    }
  }
}
