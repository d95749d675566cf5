/** The durable store: a cache of mutable sessions over two database tables. */
module SessionStore {
  import opened Text
  import opened Steering
  import opened SessionBook

  class Session {
    const id: string
    var conversation: seq<Message>
    var runs: seq<string>

    constructor (id: string, conversation: seq<Message>, runs: seq<string>)
      ensures this.id == id && this.conversation == conversation && this.runs == runs
    {
      this.id, this.conversation, this.runs := id, conversation, runs;
    }
  }

  /** A row of the sessions table. */
  datatype Row = Row(name: string, origin: Option<string>, workingSet: seq<Message>, runs: seq<string>)

  datatype Listing = Listing(total: nat, messages: seq<(nat, LogRow)>, limit: int, offset: int)

  /** Log rows with their sequence numbers. */
  function Numbered(rows: seq<LogRow>): seq<(nat, LogRow)> {
    seq(|rows|, k requires 0 <= k < |rows| => (k, rows[k]))
  }

  /** The log row with number k, of the k-th of these messages: its role, and its text, or its JSON if its
      content is no string. */
  ghost predicate Says(row: (nat, LogRow), k: nat, messages: seq<Message>, json: Content -> string) {
    && k < |messages| && row.0 == k && row.1.role == messages[k].role
    && (messages[k].content.Plain? ==> row.1.content == messages[k].content.text)
    && (messages[k].content.Other? ==> row.1.content == json(messages[k].content))
  }

  /** What the cache holds of one session. */
  datatype Cached = Cached(conversation: seq<Message>, runs: seq<string>)

  type Log = map<(string, nat), LogRow>

  /** The log's keys for a session are 0, 1, .., one for each of these rows. */
  ghost predicate LogIs(log: Log, id: string, rows: seq<LogRow>) {
    && (forall k: nat :: (id, k) in log <==> k < |rows|)
    && (forall k: nat :: k < |rows| ==> log[(id, k)] == rows[k])
  }

  ghost predicate OthersLogged(log: Log, log': Log, id: string) {
    forall i: string, k: nat :: i != id ==> ((i, k) in log <==> (i, k) in log') && ((i, k) in log ==> log'[(i, k)] == log[(i, k)])
  }

  /** Cache and tables agree about this session, and with its book: a kept session that is cached
      equals its row; one that is not kept never reaches a table. */
  ghost predicate Agrees(b: Book, id: string, kept: bool, memory: map<string, Cached>, rows: map<string, Row>, log: Log) {
    && LogIs(log, id, b.log)
    && (id in memory ==> memory[id] == Cached(b.conversation, b.runs))
    && (id in rows <==> b.name.Some?)
    && (id in rows ==> rows[id].name == b.name.value && rows[id].workingSet == b.conversation && rows[id].runs == b.runs)
    && (if kept then id in memory ==> id in rows else id !in rows)
    && (id !in memory && id !in rows ==> b == BLANK)
  }

  ghost predicate Consistent(durable: bool, json: Content -> string, ops: seq<Op>,
                             memory: map<string, Cached>, rows: map<string, Row>, log: Log) {
    forall id :: Agrees(SessionBook.After(ops, id, Kept(durable, id), json), id, Kept(durable, id), memory, rows, log)
  }

  /** The sessions table once this session has been persisted. */
  function Persisted(rows: map<string, Row>, kept: bool, id: string, c: Cached): map<string, Row> {
    if !kept then rows
    else rows[id := if id in rows then rows[id].(workingSet := c.conversation, runs := c.runs)
                    else Row(id, None, c.conversation, c.runs)]
  }

  /** The two tables and the cache of every other session are as before. */
  ghost predicate OthersSame(id: string, memory: map<string, Cached>, rows: map<string, Row>, log: Log,
                             memory': map<string, Cached>, rows': map<string, Row>, log': Log) {
    && (forall i :: i != id ==> (i in memory <==> i in memory') && (i in memory ==> memory'[i] == memory[i]))
    && (forall i :: i != id ==> (i in rows <==> i in rows') && (i in rows ==> rows'[i] == rows[i]))
    && OthersLogged(log, log', id)
  }

  /** An operation on one session that gets that session right gets all of them right. */
  lemma OpKeeps(durable: bool, json: Content -> string, ops: seq<Op>, op: Op,
                memory: map<string, Cached>, rows: map<string, Row>, log: Log,
                memory': map<string, Cached>, rows': map<string, Row>, log': Log)
    requires Consistent(durable, json, ops, memory, rows, log) && !op.Restart?
    requires OthersSame(op.id, memory, rows, log, memory', rows', log')
    requires var kept := Kept(durable, op.id);
             Agrees(Turn(SessionBook.After(ops, op.id, kept, json), op, op.id, kept, json), op.id, kept, memory', rows', log')
    ensures Consistent(durable, json, ops + [op], memory', rows', log')
  {
    hide SessionBook.After;
    hide Kept;
    forall id ensures Agrees(SessionBook.After(ops + [op], id, Kept(durable, id), json), id, Kept(durable, id), memory', rows', log') {
      AfterSnoc(ops, op, id, Kept(durable, id), json);
      assert Agrees(SessionBook.After(ops, id, Kept(durable, id), json), id, Kept(durable, id), memory, rows, log);
    }
  }

  predicate Saves(op: Op) {
    op.Append? || op.Compact? || op.RecordRun? || op.Reset?
  }

  /** Changing a cached session and writing its row. */
  lemma SaveKeeps(durable: bool, json: Content -> string, ops: seq<Op>, op: Op,
                  memory: map<string, Cached>, rows: map<string, Row>, log: Log, c: Cached, log': Log)
    requires Consistent(durable, json, ops, memory, rows, log) && Saves(op) && op.id in memory
    requires var kept := Kept(durable, op.id);
             var b := Turn(SessionBook.After(ops, op.id, kept, json), op, op.id, kept, json);
             c == Cached(b.conversation, b.runs) && LogIs(log', op.id, b.log) && OthersLogged(log, log', op.id)
    ensures Consistent(durable, json, ops + [op], memory[op.id := c], Persisted(rows, Kept(durable, op.id), op.id, c), log')
  {
    hide SessionBook.After;
    hide LoggedAll;
    hide LogIs;
    hide OthersLogged;
    assert Agrees(SessionBook.After(ops, op.id, Kept(durable, op.id), json), op.id, Kept(durable, op.id), memory, rows, log);
    OpKeeps(durable, json, ops, op, memory, rows, log,
            memory[op.id := c], Persisted(rows, Kept(durable, op.id), op.id, c), log');
  }

  /** c is the session as its row has it, or a new one with a new row. */
  ghost predicate Fetched(kept: bool, id: string, rows: map<string, Row>, c: Cached, rows': map<string, Row>) {
    if kept && id in rows then c == Cached(rows[id].workingSet, rows[id].runs) && rows' == rows
    else c == Cached([], []) && rows' == Persisted(rows, kept, id, c)
  }

  lemma CachedTouch(durable: bool, json: Content -> string, ops: seq<Op>, id: string,
                    memory: map<string, Cached>, rows: map<string, Row>, log: Log)
    requires Consistent(durable, json, ops, memory, rows, log) && id in memory
    ensures Consistent(durable, json, ops + [Touch(id)], memory, rows, log)
  {
    hide SessionBook.After;
    hide LogIs;
    hide OthersLogged;
    assert Agrees(SessionBook.After(ops, id, Kept(durable, id), json), id, Kept(durable, id), memory, rows, log);
    assert OthersLogged(log, log, id) by { SameLogged(log, id); }
    OpKeeps(durable, json, ops, Touch(id), memory, rows, log, memory, rows, log);
  }

  lemma SameLogged(log: Log, id: string)
    ensures OthersLogged(log, log, id)
  {}

  lemma FetchedTouch(durable: bool, json: Content -> string, ops: seq<Op>, id: string,
                     memory: map<string, Cached>, rows: map<string, Row>, log: Log, c: Cached, rows': map<string, Row>)
    requires Consistent(durable, json, ops, memory, rows, log) && id !in memory
    requires Fetched(Kept(durable, id), id, rows, c, rows')
    ensures Consistent(durable, json, ops + [Touch(id)], memory[id := c], rows', log)
  {
    hide SessionBook.After;
    hide LogIs;
    hide OthersLogged;
    assert Agrees(SessionBook.After(ops, id, Kept(durable, id), json), id, Kept(durable, id), memory, rows, log);
    SameLogged(log, id);
    OpKeeps(durable, json, ops, Touch(id), memory, rows, log, memory[id := c], rows', log);
  }

  /** Fetching the session first is part of the operation. */
  lemma TouchFirst(durable: bool, json: Content -> string, ops: seq<Op>, op: Op,
                   memory: map<string, Cached>, rows: map<string, Row>, log: Log)
    requires Saves(op) && Consistent(durable, json, ops + [Touch(op.id)] + [op], memory, rows, log)
    ensures Consistent(durable, json, ops + [op], memory, rows, log)
  {
    hide Agrees;
    hide SessionBook.After;
    hide LoggedAll;
    forall id ensures Agrees(SessionBook.After(ops + [op], id, Kept(durable, id), json), id, Kept(durable, id), memory, rows, log) {
      AfterSnoc(ops, op, id, Kept(durable, id), json);
      AfterSnoc(ops, Touch(op.id), id, Kept(durable, id), json);
      AfterSnoc(ops + [Touch(op.id)], op, id, Kept(durable, id), json);
      assert Agrees(SessionBook.After(ops + [Touch(op.id)] + [op], id, Kept(durable, id), json), id, Kept(durable, id), memory, rows, log);
    }
  }

  lemma SaveTouched(durable: bool, json: Content -> string, ops: seq<Op>, op: Op,
                    memory: map<string, Cached>, rows: map<string, Row>, log: Log, c: Cached, log': Log)
    requires Saves(op) && op.id in memory && Consistent(durable, json, ops + [Touch(op.id)], memory, rows, log)
    requires var kept := Kept(durable, op.id);
             var b := Turn(SessionBook.After(ops + [Touch(op.id)], op.id, kept, json), op, op.id, kept, json);
             c == Cached(b.conversation, b.runs) && LogIs(log', op.id, b.log) && OthersLogged(log, log', op.id)
    ensures Consistent(durable, json, ops + [op], memory[op.id := c], Persisted(rows, Kept(durable, op.id), op.id, c), log')
  {
    hide Consistent;
    SaveKeeps(durable, json, ops + [Touch(op.id)], op, memory, rows, log, c, log');
    TouchFirst(durable, json, ops, op, memory[op.id := c], Persisted(rows, Kept(durable, op.id), op.id, c), log');
  }

  lemma SomeLeft(left: set<nat>, a: nat, b: nat)
    requires left != {} && forall k: nat :: k in left <==> a <= k < b
    ensures a in left && a < b
  {
    var k :| k in left;
  }

  lemma LogAt(log: Log, id: string, rows: seq<LogRow>, k: nat)
    requires LogIs(log, id, rows)
    ensures k < |rows| ==> (id, k) in log && log[(id, k)] == rows[k]
  {}

  function Created(rows: map<string, Row>, id: string, name: string): map<string, Row> {
    rows[id := Row(if name == "" then id else name, Some("dashboard"), [], [])]
  }

  lemma CreateKeeps(durable: bool, json: Content -> string, ops: seq<Op>, id: string, name: string,
                    memory: map<string, Cached>, rows: map<string, Row>, log: Log)
    requires Consistent(durable, json, ops, memory, rows, log) && !Ephemeral(id) && id !in memory && id !in rows
    ensures Consistent(durable, json, ops + [Create(id, name)], memory[id := Cached([], [])],
                       if durable then Created(rows, id, name) else rows, log)
  {
    hide SessionBook.After;
    hide LogIs;
    hide OthersLogged;
    assert Agrees(SessionBook.After(ops, id, Kept(durable, id), json), id, Kept(durable, id), memory, rows, log);
    SameLogged(log, id);
    OpKeeps(durable, json, ops, Create(id, name), memory, rows, log,
            memory[id := Cached([], [])], if durable then Created(rows, id, name) else rows, log);
  }

  function LogWithout(log: Log, id: string): Log {
    map key | key in log && key.0 != id :: log[key]
  }

  lemma DeleteKeeps(durable: bool, json: Content -> string, ops: seq<Op>, id: string,
                    memory: map<string, Cached>, rows: map<string, Row>, log: Log)
    requires Consistent(durable, json, ops, memory, rows, log)
    ensures Consistent(durable, json, ops + [Delete(id)], memory - {id},
                       if durable then rows - {id} else rows, if durable then LogWithout(log, id) else log)
  {
    hide SessionBook.After;
    assert Agrees(SessionBook.After(ops, id, Kept(durable, id), json), id, Kept(durable, id), memory, rows, log);
    NothingWithoutRow(ops, id, Kept(durable, id), json);
    OpKeeps(durable, json, ops, Delete(id), memory, rows, log, memory - {id},
            if durable then rows - {id} else rows, if durable then LogWithout(log, id) else log);
  }

  lemma {:induction false} Below(s: set<nat>, n: nat)
    requires forall k: nat :: k in s <==> k < n
    ensures |s| == n
    decreases n
  {
    if n == 0 {
      assert s == {};
    } else {
      Below(s - {n - 1}, n - 1);
    }
  }

  class Store {
    const durable: bool
    const json: Content -> string
    var sessions: map<string, Session>
    var rows: map<string, Row>
    var log: Log
    /** every operation so far */
    ghost var ops: seq<Op>

    ghost function Memory(): map<string, Cached>
      reads this`sessions, sessions.Values
    {
      map id | id in sessions :: Cached(sessions[id].conversation, sessions[id].runs)
    }

    ghost predicate Valid()
      reads this, sessions.Values
    {
      && (forall id :: id in sessions ==> sessions[id].id == id)
      && Consistent(durable, json, ops, Memory(), rows, log)
    }

    /** What some operations make of a session. */
    ghost function BookOf(all: seq<Op>, id: string): Book {
      SessionBook.After(all, id, Kept(durable, id), json)
    }

    ghost function Book(id: string): Book
      reads this`ops
    {
      BookOf(ops, id)
    }

    /** The name a session has once it has a row. */
    ghost function Named(b: Book, id: string): Option<string> {
      if Kept(durable, id) && b.name.None? then Some(id) else b.name
    }

    constructor (durable: bool, json: Content -> string)
      ensures Valid() && ops == [] && this.durable == durable && this.json == json
    {
      this.durable, this.json := durable, json;
      sessions, rows, log, ops := map[], map[], map[], [];
    }

    /** Write the session's row, keeping the name and origin it already has. */
    method Persist(s: Session)
      modifies this`rows
      ensures rows == Persisted(old(rows), Kept(durable, s.id), s.id, Cached(s.conversation, s.runs))
      ensures s.id in old(rows) ==> s.id in rows && rows[s.id].name == old(rows)[s.id].name && rows[s.id].origin == old(rows)[s.id].origin
    {
      if !Kept(durable, s.id) {
        return;
      }
      var row := if s.id in rows then rows[s.id] else Row(s.id, None, [], []);
      rows := rows[s.id := row.(workingSet := s.conversation, runs := s.runs)];
    }

    /** The rows of the log for new messages, numbered on from the highest number there is. */
    method AppendLog(id: string, messages: seq<Message>, ghost before: seq<LogRow>)
      requires LogIs(log, id, before)
      modifies this`log
      ensures LogIs(log, id, if Kept(durable, id) then before + LoggedAll(messages, json) else before)
      ensures OthersLogged(old(log), log, id)
    {
      if !Kept(durable, id) {
        return;
      }
      var seq' := NextSeq(id, before);
      for i := 0 to |messages|
        invariant seq' == |before| + i
        invariant LogIs(log, id, before + LoggedAll(messages[..i], json))
        invariant OthersLogged(old(log), log, id)
      {
        assert LoggedAll(messages[..i + 1], json) == LoggedAll(messages[..i], json) + [Logged(messages[i], json)];
        log := log[(id, seq') := Logged(messages[i], json)];
        seq' := seq' + 1;
      }
      assert messages[..|messages|] == messages;
    }

    /** COALESCE(MAX(seq), -1) + 1 */
    method NextSeq(id: string, ghost before: seq<LogRow>) returns (n: nat)
      requires LogIs(log, id, before)
      ensures n == |before|
    {
      var seqs := set key | key in log && key.0 == id :: key.1;
      assert forall k: nat :: k in seqs ==> (id, k) in log;
      forall k: nat | k < |before| ensures k in seqs {
        var key := (id, k);
        assert key in log && key.0 == id && key.1 == k;
      }
      if 0 < |before| { assert (|before| - 1) as nat in seqs; }
      if seqs == {} {
        return 0;
      }
      var max: nat := Max(seqs, |before| - 1);
      n := max + 1;
    }

    /** MAX(seq) */
    method Max(seqs: set<nat>, ghost top: int) returns (m: nat)
      requires seqs != {} && top in seqs && forall k :: k in seqs ==> k <= top
      ensures m == top
    {
      m :| m in seqs && forall k :: k in seqs ==> k <= m;
    }

    /** The session as its row has it, if it has one. */
    method Load(id: string) returns (s: Session?)
      ensures s == null ==> !(Kept(durable, id) && id in rows)
      ensures s != null ==> Kept(durable, id) && id in rows && fresh(s) && s.id == id
                            && s.conversation == rows[id].workingSet && s.runs == rows[id].runs
    {
      if !Kept(durable, id) || id !in rows {
        return null;
      }
      s := new Session(id, rows[id].workingSet, rows[id].runs);
    }

    /** The session from its row; without one, a new session, with its row. */
    method LoadOrCreate(id: string) returns (s: Session)
      modifies this`rows
      ensures fresh(s) && s.id == id
      ensures Fetched(Kept(durable, id), id, old(rows), Cached(s.conversation, s.runs), rows)
    {
      var loaded := Load(id);
      if loaded != null {
        s := loaded;
      } else {
        s := new Session(id, [], []);
        Persist(s);
      }
    }

    /** The cached session, loaded or created when it is not there. */
    method GetOrCreate(id: string) returns (s: Session)
      requires Valid()
      modifies this`sessions, this`rows, this`ops
      ensures Valid() && ops == old(ops) + [Touch(id)] && log == old(log)
      ensures id in sessions && sessions[id] == s && s.id == id
      ensures Book(id) == old(Book(id)).(name := Named(old(Book(id)), id)) && forall i :: i != id ==> Book(i) == old(Book(i))
      ensures forall v :: v in sessions.Values ==> v in old(sessions.Values) || fresh(v)
    {
      hide SessionBook.After;
      hide Consistent;
      hide Persisted;
      hide Fetched;
      ghost var memory, was := Memory(), rows;
      if id in sessions {
        s := sessions[id];
        CachedTouch(durable, json, ops, id, memory, rows, log);
      } else {
        s := LoadOrCreate(id);
        sessions := sessions[id := s];
        assert Memory() == memory[id := Cached(s.conversation, s.runs)];
        FetchedTouch(durable, json, ops, id, memory, was, log, Cached(s.conversation, s.runs), rows);
      }
      Turned(ops, Touch(id));
      ops := ops + [Touch(id)];
    }

    method ExtendMessages(id: string, messages: seq<Message>)
      requires Valid()
      modifies this, sessions.Values
      ensures Valid() && ops == old(ops) + [Append(id, messages)]
      ensures forall v :: v in sessions.Values ==> v in old(sessions.Values) || fresh(v)
      ensures Book(id).conversation == old(Book(id)).conversation + messages && Book(id).runs == old(Book(id)).runs
      ensures Book(id).log == old(Book(id)).log + if Kept(durable, id) then LoggedAll(messages, json) else []
      ensures Book(id).name == Named(old(Book(id)), id)
      ensures forall i :: i != id ==> Book(i) == old(Book(i))
    {
      hide Consistent;
      hide Persisted;
      hide LoggedAll;
      hide LogIs;
      hide OthersLogged;
      hide SessionBook.After;
      ghost var was := ops;
      var s := GetOrCreate(id);
      ghost var memory, rows0, log0 := Memory(), rows, log;
      LogAgrees(id);
      s.conversation := s.conversation + messages;
      AppendLog(id, messages, Book(id).log);
      Persist(s);
      SaveTouched(durable, json, was, Append(id, messages), memory, rows0, log0, Cached(s.conversation, s.runs), log);
      ops := was + [Append(id, messages)];
      assert Memory() == memory[id := Cached(s.conversation, s.runs)];
      Turned(was, Append(id, messages));
    }

    /** (`append_message` is this with a list of one.) */
    method AppendMessage(id: string, message: Message)
      requires Valid()
      modifies this, sessions.Values
      ensures Valid() && ops == old(ops) + [Append(id, [message])]
      ensures forall v :: v in sessions.Values ==> v in old(sessions.Values) || fresh(v)
      ensures Book(id).conversation == old(Book(id)).conversation + [message]
    {
      ExtendMessages(id, [message]);
    }

    /** What one more operation makes of every session. */
    lemma Turned(was: seq<Op>, op: Op)
      ensures forall i :: SessionBook.After(was + [op], i, Kept(durable, i), json)
                       == Turn(SessionBook.After(was, i, Kept(durable, i), json), op, i, Kept(durable, i), json)
    {
      hide SessionBook.After;
      forall i { AfterSnoc(was, op, i, Kept(durable, i), json); }
    }

    lemma LogAgrees(id: string)
      requires Valid() && id in sessions
      ensures LogIs(log, id, Book(id).log)
      ensures Cached(sessions[id].conversation, sessions[id].runs) == Cached(Book(id).conversation, Book(id).runs)
      ensures Kept(durable, id) ==> Book(id).name.Some?
      ensures !Kept(durable, id) ==> Book(id).log == []
    {
      hide LogIs;
      assert Agrees(Book(id), id, Kept(durable, id), Memory(), rows, log);
      NothingWithoutRow(ops, id, Kept(durable, id), json);
    }

    /** Replace the working set (compaction). */
    method SetWorkingSet(id: string, messages: seq<Message>)
      requires Valid()
      modifies this, sessions.Values
      ensures Valid() && ops == old(ops) + [Compact(id, messages)]
      ensures forall v :: v in sessions.Values ==> v in old(sessions.Values) || fresh(v)
      ensures Book(id) == SessionBook.Book(messages, old(Book(id)).runs, old(Book(id)).log, Named(old(Book(id)), id))
      ensures forall i :: i != id ==> Book(i) == old(Book(i))
    {
      hide Consistent;
      hide Persisted;
      hide LoggedAll;
      hide LogIs;
      hide OthersLogged;
      hide SessionBook.After;
      ghost var was := ops;
      var s := GetOrCreate(id);
      ghost var memory, rows0 := Memory(), rows;
      LogAgrees(id);
      s.conversation := messages;
      Persist(s);
      SameLogged(log, id);
      SaveTouched(durable, json, was, Compact(id, messages), memory, rows0, log, Cached(s.conversation, s.runs), log);
      ops := was + [Compact(id, messages)];
      assert Memory() == memory[id := Cached(s.conversation, s.runs)];
      Turned(was, Compact(id, messages));
    }

    /** Note a run of the session. */
    method RecordRun(id: string, run: string)
      requires Valid()
      modifies this, sessions.Values
      ensures Valid() && ops == old(ops) + [SessionBook.RecordRun(id, run)]
      ensures forall v :: v in sessions.Values ==> v in old(sessions.Values) || fresh(v)
      ensures Book(id) == SessionBook.Book(old(Book(id)).conversation, old(Book(id)).runs + [run], old(Book(id)).log,
                                           Named(old(Book(id)), id))
      ensures forall i :: i != id ==> Book(i) == old(Book(i))
    {
      hide Consistent;
      hide Persisted;
      hide LoggedAll;
      hide LogIs;
      hide OthersLogged;
      hide SessionBook.After;
      ghost var was := ops;
      var s := GetOrCreate(id);
      ghost var memory, rows0 := Memory(), rows;
      LogAgrees(id);
      s.runs := s.runs + [run];
      Persist(s);
      SameLogged(log, id);
      SaveTouched(durable, json, was, SessionBook.RecordRun(id, run), memory, rows0, log, Cached(s.conversation, s.runs), log);
      ops := was + [SessionBook.RecordRun(id, run)];
      assert Memory() == memory[id := Cached(s.conversation, s.runs)];
      Turned(was, SessionBook.RecordRun(id, run));
    }

    /** Clear the working set. */
    method Reset(id: string)
      requires Valid()
      modifies this, sessions.Values
      ensures Valid() && ops == old(ops) + [SessionBook.Reset(id)]
      ensures forall v :: v in sessions.Values ==> v in old(sessions.Values) || fresh(v)
      ensures Book(id) == SessionBook.Book([], old(Book(id)).runs, old(Book(id)).log, Named(old(Book(id)), id))
      ensures forall i :: i != id ==> Book(i) == old(Book(i))
    {
      hide Consistent;
      hide Persisted;
      hide LoggedAll;
      hide LogIs;
      hide OthersLogged;
      hide SessionBook.After;
      ghost var was := ops;
      var s := GetOrCreate(id);
      ghost var memory, rows0 := Memory(), rows;
      LogAgrees(id);
      s.conversation := [];
      Persist(s);
      SameLogged(log, id);
      SaveTouched(durable, json, was, SessionBook.Reset(id), memory, rows0, log, Cached(s.conversation, s.runs), log);
      ops := was + [SessionBook.Reset(id)];
      assert Memory() == memory[id := Cached(s.conversation, s.runs)];
      Turned(was, SessionBook.Reset(id));
    }

    /** The working set, from the cache or the database; nothing is created. */
    method Conversation(id: string) returns (r: seq<Message>)
      requires Valid()
      modifies this`sessions, this`ops
      ensures Valid() && ops == old(ops) + [Read(id)] && rows == old(rows) && log == old(log)
      ensures r == old(Book(id)).conversation && forall i :: Book(i) == old(Book(i))
      ensures forall v :: v in sessions.Values ==> v in old(sessions.Values) || fresh(v)
    {
      hide SessionBook.After;
      hide LogIs;
      hide OthersLogged;
      hide Consistent;
      ghost var memory := Memory();
      AgreesNow(id);
      SameLogged(log, id);
      if id in sessions {
        r := sessions[id].conversation;
      } else {
        var s := Load(id);
        if s != null {
          sessions := sessions[id := s];
          assert Memory() == memory[id := Cached(s.conversation, s.runs)];
          r := s.conversation;
        } else {
          r := [];
        }
      }
      OpKeeps(durable, json, ops, Read(id), memory, rows, log, Memory(), rows, log);
      Turned(ops, Read(id));
      ops := ops + [Read(id)];
    }

    lemma AgreesNow(id: string)
      requires Valid()
      ensures Agrees(Book(id), id, Kept(durable, id), Memory(), rows, log)
    {}

    /** A new session under a new id. */
    method CreateSession(id: string, name: string)
      requires Valid() && !Ephemeral(id) && id !in sessions && id !in rows
      modifies this`sessions, this`rows, this`ops
      ensures Valid() && ops == old(ops) + [Create(id, name)] && log == old(log)
      ensures durable ==> id in rows && rows[id].origin == Some("dashboard")
      ensures Book(id) == SessionBook.Book([], [], old(Book(id)).log,
                                           if !durable then None else if name == "" then Some(id) else Some(name))
      ensures forall i :: i != id ==> Book(i) == old(Book(i))
      ensures forall v :: v in sessions.Values ==> v in old(sessions.Values) || fresh(v)
    {
      hide SessionBook.After;
      hide LogIs;
      hide OthersLogged;
      hide Consistent;
      hide Created;
      hide Ephemeral;
      CreateKeeps(durable, json, ops, id, name, Memory(), rows, log);
      AddNew(id, name);
      MadeNew(ops, id, name);
      ops := ops + [Create(id, name)];
    }

    method AddNew(id: string, name: string)
      requires forall i :: i in sessions ==> sessions[i].id == i
      modifies this`sessions, this`rows
      ensures forall i :: i in sessions ==> sessions[i].id == i
      ensures Memory() == old(Memory())[id := Cached([], [])]
      ensures rows == if durable then Created(old(rows), id, name) else old(rows)
      ensures durable ==> id in rows && rows[id].origin == Some("dashboard")
      ensures forall v :: v in sessions.Values ==> v in old(sessions.Values) || fresh(v)
    {
      ghost var memory := Memory();
      var s := new Session(id, [], []);
      sessions := sessions[id := s];
      if durable {
        rows := Created(rows, id, name);
      }
      assert Memory() == memory[id := Cached([], [])];
    }

    /** A session as it is once it was created: empty, named as asked or by its id. */
    ghost function New(b: Book, id: string, name: string): Book {
      SessionBook.Book([], [], b.log, if !durable then None else if name == "" then Some(id) else Some(name))
    }

    lemma MadeNew(was: seq<Op>, id: string, name: string)
      requires !Ephemeral(id)
      ensures BookOf(was + [Create(id, name)], id) == New(BookOf(was, id), id, name)
      ensures forall i :: i != id ==> BookOf(was + [Create(id, name)], i) == BookOf(was, i)
    {
      hide SessionBook.After;
      Turned(was, Create(id, name));
    }

    method SessionName(id: string) returns (name: Option<string>)
      requires Valid()
      ensures name == Book(id).name
    {
      hide LogIs;
      hide SessionBook.After;
      AgreesNow(id);
      NothingWithoutRow(ops, id, Kept(durable, id), json);
      name := if durable && id in rows then Some(rows[id].name) else None;
    }

    method RenameSession(id: string, name: string)
      requires Valid()
      modifies this`rows, this`ops
      ensures Valid() && ops == old(ops) + [Rename(id, name)] && log == old(log)
      ensures Book(id) == old(Book(id)).(name := if old(Book(id)).name.Some? then Some(name) else None)
      ensures forall i :: i != id ==> Book(i) == old(Book(i))
    {
      hide SessionBook.After;
      hide LogIs;
      hide OthersLogged;
      hide Consistent;
      ghost var was := rows;
      AgreesNow(id);
      SameLogged(log, id);
      if durable && id in rows {
        rows := rows[id := rows[id].(name := name)];
      }
      OpKeeps(durable, json, ops, Rename(id, name), Memory(), was, log, Memory(), rows, log);
      Turned(ops, Rename(id, name));
      ops := ops + [Rename(id, name)];
    }

    /** Rename, but only while the session still goes by its id. */
    method RenameIfPlaceholder(id: string, name: string) returns (renamed: bool)
      requires Valid()
      modifies this`rows, this`ops
      ensures Valid() && ops == old(ops) + [AutoTitle(id, name)] && log == old(log)
      ensures renamed <==> old(Book(id)).name == Some(id)
      ensures Book(id) == if renamed then old(Book(id)).(name := Some(name)) else old(Book(id))
      ensures forall i :: i != id ==> Book(i) == old(Book(i))
    {
      hide SessionBook.After;
      hide LogIs;
      hide OthersLogged;
      hide Consistent;
      ghost var was := rows;
      AgreesNow(id);
      SameLogged(log, id);
      NothingWithoutRow(ops, id, Kept(durable, id), json);
      renamed := durable && id in rows && rows[id].name == id;
      if renamed {
        rows := rows[id := rows[id].(name := name)];
      }
      OpKeeps(durable, json, ops, AutoTitle(id, name), Memory(), was, log, Memory(), rows, log);
      Turned(ops, AutoTitle(id, name));
      ops := ops + [AutoTitle(id, name)];
    }

    method DeleteSession(id: string)
      requires Valid()
      modifies this`sessions, this`rows, this`log, this`ops
      ensures Valid() && ops == old(ops) + [Delete(id)]
      ensures sessions.Values <= old(sessions.Values)
      ensures Book(id) == BLANK && forall i :: i != id ==> Book(i) == old(Book(i))
    {
      hide SessionBook.After;
      hide Consistent;
      hide LogIs;
      ghost var memory := Memory();
      DeleteKeeps(durable, json, ops, id, memory, rows, log);
      sessions := sessions - {id};
      if durable {
        log := LogWithout(log, id);
        rows := rows - {id};
      }
      Turned(ops, Delete(id));
      ops := ops + [Delete(id)];
      assert Memory() == memory - {id};
    }

    /** The process comes up again on the same database, with an empty cache. */
    method Restart()
      requires Valid()
      modifies this`sessions, this`ops
      ensures Valid() && ops == old(ops) + [SessionBook.Restart] && rows == old(rows) && log == old(log)
      ensures sessions == map[]
      ensures forall id :: Kept(durable, id) ==> Book(id) == old(Book(id))
    {
      hide SessionBook.After;
      hide LogIs;
      ghost var memory := Memory();
      forall id ensures Agrees(SessionBook.After(ops + [SessionBook.Restart], id, Kept(durable, id), json), id, Kept(durable, id), map[], rows, log) {
        AgreesNow(id);
        AfterSnoc(ops, SessionBook.Restart, id, Kept(durable, id), json);
        NothingWithoutRow(ops, id, Kept(durable, id), json);
      }
      forall id ensures SessionBook.After(ops + [SessionBook.Restart], id, Kept(durable, id), json) ==
                        if Kept(durable, id) then Book(id) else BLANK {
        AfterSnoc(ops, SessionBook.Restart, id, Kept(durable, id), json);
      }
      sessions := map[];
      ops := ops + [SessionBook.Restart];
    }

    /** SELECT .. ORDER BY seq LIMIT limit OFFSET offset: rows are taken in order, lowest first. */
    method SelectPage(id: string, seqs: set<nat>, limit: nat, offset: nat, ghost log': seq<LogRow>)
      returns (page: seq<(nat, LogRow)>)
      requires LogIs(log, id, log') && 0 < limit && forall k: nat :: k in seqs <==> k < |log'|
      ensures page == Numbered(log')[if offset > |log'| then |log'| else offset..
                                     if offset + limit > |log'| then |log'| else offset + limit]
    {
      hide LogIs;
      page := [];
      ghost var rows := Numbered(log');
      var left, skipped: nat := seqs, 0;
      while left != {} && |page| < limit
        invariant 0 <= skipped <= offset && (|page| > 0 ==> skipped == offset) && |page| <= limit
        invariant skipped + |page| <= |log'|
        invariant forall k: nat :: k in left <==> skipped + |page| <= k < |log'|
        invariant page == rows[skipped..skipped + |page|]
        decreases left
      {
        SomeLeft(left, skipped + |page|, |log'|);
        LogAt(log, id, log', skipped + |page|);
        var k := Lowest(left, skipped + |page|);
        left := left - {k};
        if skipped < offset {
          skipped := skipped + 1;
        } else {
          page := page + [(k, log[(id, k)])];
        }
      }
      if left == {} {
        assert skipped + |page| !in left;
      }
    }

    method Lowest(left: set<nat>, ghost bottom: nat) returns (k: nat)
      requires bottom in left && forall j :: j in left ==> bottom <= j
      ensures k == bottom
    {
      k :| k in left && forall j :: j in left ==> k <= j;
    }

    lemma SeqsAre(seqs: set<nat>, id: string, rows: seq<LogRow>)
      requires seqs == set key | key in log && key.0 == id :: key.1
      requires LogIs(log, id, rows)
      ensures forall k: nat :: k in seqs <==> k < |rows|
      ensures |seqs| == |rows|
    {
      forall k: nat | k < |rows| ensures k in seqs {
        var key := (id, k);
        assert key in log && key.0 == id && key.1 == k;
      }
      forall k | k in seqs ensures k < |rows| {
        assert (id, k) in log;
      }
      Below(seqs, |rows|);
    }

    /** The rows of a page say what the messages said. */
    lemma PageSays(id: string, limit: int, offset: int)
      requires Kept(durable, id)
      ensures var page := Page(Numbered(Book(id).log), limit, offset);
              && |Book(id).log| == |Appended(ops, id)|
              && forall k :: 0 <= k < |page| ==>
                   Says(page[k], if offset < 0 then k else offset + k, Appended(ops, id), json)
    {
      hide SessionBook.After;
      hide Appended;
      hide Page;
      var page := Page(Numbered(Book(id).log), limit, offset);
      RowSays(ops, id, json, 0);
      forall k | 0 <= k < |page| ensures Says(page[k], if offset < 0 then k else offset + k, Appended(ops, id), json) {
        PageIs(Numbered(Book(id).log), limit, offset, k);
        RowSays(ops, id, json, if offset < 0 then k else offset + k);
      }
    }

    /** One page of the raw log. */
    method SessionMessages(id: string, limit: int, offset: int) returns (r: Listing)
      requires Valid()
      ensures !durable ==> r == Listing(0, [], limit, offset)
      ensures Kept(durable, id) ==> r.total == |Appended(ops, id)| && forall k :: 0 <= k < |r.messages| ==>
        Says(r.messages[k], if offset < 0 then k else offset + k, Appended(ops, id), json)
      ensures durable ==> r == Listing(|Book(id).log|, Page(Numbered(Book(id).log), limit, offset),
                                       Clamp(limit), if offset < 0 then 0 else offset)
    {
      hide SessionBook.After;
      if !durable {
        return Listing(0, [], limit, offset);
      }
      var limit', offset' := Clamp(limit), if offset < 0 then 0 else offset;
      AgreesNow(id);
      var seqs := set key | key in log && key.0 == id :: key.1;
      SeqsAre(seqs, id, Book(id).log);
      var total := |seqs|;
      var page := SelectPage(id, seqs, limit', offset', Book(id).log);
      assert page == Page(Numbered(Book(id).log), limit, offset);
      if Kept(durable, id) { PageSays(id, limit, offset); }
      return Listing(total, page, limit', offset');
    }
  }
}
