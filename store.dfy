/** The database as an abstract store: the rows the server reads and writes, and the
    calls it makes. Every call takes `ok`, the outcome of the SQL statement; a failed call
    changes nothing. */
module Store {
  import opened Wrappers

  /** The error text of a failed statement; the driver's own message is not modelled. */
  const DbError: string := "database error"

  datatype ActiveTerminal = ActiveTerminal(port: int, title: string, pid: int)
  datatype ActiveLayout = ActiveLayout(layoutType: string, terminalCount: int)
  datatype SessionRow = SessionRow(name: string, description: string)
  datatype SessionTerminal = SessionTerminal(sessionId: int, terminalIndex: int, title: string, shell: string, workingDir: string)

  /** The rows of one session, in the order they were written. */
  function RowsOf(rows: seq<SessionTerminal>, sessionId: int): (r: seq<SessionTerminal>)
    ensures |r| <= |rows|
    ensures forall k :: 0 <= k < |r| ==> r[k].sessionId == sessionId && r[k] in rows
  {
    if rows == [] then []
    else if rows[0].sessionId == sessionId then [rows[0]] + RowsOf(rows[1..], sessionId)
    else RowsOf(rows[1..], sessionId)
  }

  /** Rows appended for another session do not change a session's rows; rows appended for
      it come after its earlier ones. */
  lemma {:induction false} RowsOfAppend(rows: seq<SessionTerminal>, row: SessionTerminal, sessionId: int)
    ensures RowsOf(rows + [row], sessionId) ==
      if row.sessionId == sessionId then RowsOf(rows, sessionId) + [row] else RowsOf(rows, sessionId)
  {
    if rows != [] {
      assert (rows + [row])[1..] == rows[1..] + [row];
      RowsOfAppend(rows[1..], row, sessionId);
    } else {
      assert RowsOf([row], sessionId) == if row.sessionId == sessionId then [row] else [];
    }
  }

  /** A session no row carries has no rows. */
  lemma {:induction false} RowsOfNone(rows: seq<SessionTerminal>, sessionId: int)
    requires forall k :: 0 <= k < |rows| ==> rows[k].sessionId != sessionId
    ensures RowsOf(rows, sessionId) == []
  {
    if rows != [] {
      RowsOfNone(rows[1..], sessionId);
    }
  }

  /** Rows are filtered piecewise. */
  lemma {:induction false} RowsOfConcat(a: seq<SessionTerminal>, b: seq<SessionTerminal>, sessionId: int)
    ensures RowsOf(a + b, sessionId) == RowsOf(a, sessionId) + RowsOf(b, sessionId)
  {
    if a != [] {
      assert (a + b)[1..] == a[1..] + b;
      RowsOfConcat(a[1..], b, sessionId);
    } else {
      assert a + b == b;
    }
  }

  /** Rows that all belong to the session are all its rows. */
  lemma {:induction false} RowsOfAll(rows: seq<SessionTerminal>, sessionId: int)
    requires forall k :: 0 <= k < |rows| ==> rows[k].sessionId == sessionId
    ensures RowsOf(rows, sessionId) == rows
  {
    if rows != [] {
      RowsOfAll(rows[1..], sessionId);
      assert rows == [rows[0]] + rows[1..];
    }
  }

  class Database {
    /** active_terminals, keyed by the autoincrement row id */
    var activeTerminals: map<int, ActiveTerminal>
    var lastTerminalRow: int
    /** the singleton active_layout row */
    var layout: ActiveLayout
    var sessions: map<int, SessionRow>
    var lastSessionRow: int
    var sessionTerminals: seq<SessionTerminal>

    /** Row ids are positive and never above the last one handed out. */
    ghost predicate Valid()
      reads this
    {
      lastTerminalRow >= 0 && lastSessionRow >= 0 &&
      (forall k :: k in activeTerminals ==> 1 <= k <= lastTerminalRow) &&
      (forall k :: k in sessions ==> 1 <= k <= lastSessionRow)
    }

    /** Open on a fresh database: empty tables and the default layout "horizontal" with 2 terminals. */
    constructor ()
      ensures Valid()
      ensures activeTerminals == map[] && sessions == map[] && sessionTerminals == []
      ensures layout == ActiveLayout("horizontal", 2)
      ensures lastTerminalRow == 0 && lastSessionRow == 0
    {
      activeTerminals := map[];
      lastTerminalRow := 0;
      layout := ActiveLayout("horizontal", 2);
      sessions := map[];
      lastSessionRow := 0;
      sessionTerminals := [];
    }

    /** INSERT into active_terminals; the new row id is returned. */
    method SaveActiveTerminal(port: int, title: string, pid: int, ok: bool) returns (r: Result<int>)
      requires Valid()
      modifies this
      ensures Valid()
      ensures ok ==> r == Ok(old(lastTerminalRow) + 1) && lastTerminalRow == r.value
      ensures ok ==> activeTerminals == old(activeTerminals)[r.value := ActiveTerminal(port, title, pid)]
      ensures !ok ==> r.Err? && activeTerminals == old(activeTerminals) && lastTerminalRow == old(lastTerminalRow)
      ensures layout == old(layout) && sessions == old(sessions) && lastSessionRow == old(lastSessionRow)
      ensures sessionTerminals == old(sessionTerminals)
      ensures r.Ok? ==> r.value > 0 && r.value !in old(activeTerminals)
    {
      if !ok {
        return Err(DbError);
      }
      lastTerminalRow := lastTerminalRow + 1;
      activeTerminals := activeTerminals[lastTerminalRow := ActiveTerminal(port, title, pid)];
      r := Ok(lastTerminalRow);
    }

    /** UPDATE the title of one active terminal row; a missing row is not an error. */
    method UpdateActiveTerminalTitle(id: int, title: string, ok: bool) returns (success: bool)
      requires Valid()
      modifies this
      ensures Valid()
      ensures success == ok
      ensures activeTerminals ==
        if ok && id in old(activeTerminals) then old(activeTerminals)[id := old(activeTerminals)[id].(title := title)]
        else old(activeTerminals)
      ensures lastTerminalRow == old(lastTerminalRow) && layout == old(layout) && sessions == old(sessions)
      ensures lastSessionRow == old(lastSessionRow) && sessionTerminals == old(sessionTerminals)
    {
      if ok && id in activeTerminals {
        activeTerminals := activeTerminals[id := activeTerminals[id].(title := title)];
      }
      success := ok;
    }

    /** DELETE one active terminal row. */
    method DeleteActiveTerminal(id: int, ok: bool) returns (success: bool)
      requires Valid()
      modifies this
      ensures Valid()
      ensures success == ok
      ensures activeTerminals == if ok then old(activeTerminals) - {id} else old(activeTerminals)
      ensures lastTerminalRow == old(lastTerminalRow) && layout == old(layout) && sessions == old(sessions)
      ensures lastSessionRow == old(lastSessionRow) && sessionTerminals == old(sessionTerminals)
    {
      if ok {
        activeTerminals := activeTerminals - {id};
      }
      success := ok;
    }

    /** DELETE every active terminal row. */
    method ClearActiveTerminals(ok: bool) returns (success: bool)
      requires Valid()
      modifies this
      ensures Valid()
      ensures success == ok
      ensures activeTerminals == if ok then map[] else old(activeTerminals)
      ensures lastTerminalRow == old(lastTerminalRow) && layout == old(layout) && sessions == old(sessions)
      ensures lastSessionRow == old(lastSessionRow) && sessionTerminals == old(sessionTerminals)
    {
      if ok {
        activeTerminals := map[];
      }
      success := ok;
    }

    method GetActiveLayout(ok: bool) returns (r: Result<ActiveLayout>)
      ensures ok ==> r == Ok(layout)
      ensures !ok ==> r == Err(DbError)
    {
      if ok {
        r := Ok(layout);
      } else {
        r := Err(DbError);
      }
    }

    /** UPDATE the singleton active_layout row. */
    method UpdateActiveLayout(layoutType: string, terminalCount: int, ok: bool) returns (success: bool)
      requires Valid()
      modifies this
      ensures Valid()
      ensures success == ok
      ensures layout == if ok then ActiveLayout(layoutType, terminalCount) else old(layout)
      ensures activeTerminals == old(activeTerminals) && lastTerminalRow == old(lastTerminalRow)
      ensures sessions == old(sessions) && lastSessionRow == old(lastSessionRow)
      ensures sessionTerminals == old(sessionTerminals)
    {
      if ok {
        layout := ActiveLayout(layoutType, terminalCount);
      }
      success := ok;
    }

    /** INSERT a session; the new row id is returned. */
    method CreateSession(name: string, description: string, ok: bool) returns (r: Result<int>)
      requires Valid()
      modifies this
      ensures Valid()
      ensures ok ==> r == Ok(old(lastSessionRow) + 1) && lastSessionRow == r.value
      ensures ok ==> sessions == old(sessions)[r.value := SessionRow(name, description)]
      ensures !ok ==> r.Err? && sessions == old(sessions) && lastSessionRow == old(lastSessionRow)
      ensures activeTerminals == old(activeTerminals) && lastTerminalRow == old(lastTerminalRow)
      ensures layout == old(layout) && sessionTerminals == old(sessionTerminals)
      ensures r.Ok? ==> r.value > 0 && r.value !in old(sessions)
    {
      if !ok {
        return Err(DbError);
      }
      lastSessionRow := lastSessionRow + 1;
      sessions := sessions[lastSessionRow := SessionRow(name, description)];
      r := Ok(lastSessionRow);
    }

    /** INSERT one row into session_terminals. */
    method SaveSessionTerminal(sessionId: int, index: int, title: string, shell: string, workingDir: string, ok: bool)
      returns (success: bool)
      requires Valid()
      modifies this
      ensures Valid()
      ensures success == ok
      ensures sessionTerminals ==
        if ok then old(sessionTerminals) + [SessionTerminal(sessionId, index, title, shell, workingDir)]
        else old(sessionTerminals)
      ensures activeTerminals == old(activeTerminals) && lastTerminalRow == old(lastTerminalRow)
      ensures layout == old(layout) && sessions == old(sessions) && lastSessionRow == old(lastSessionRow)
    {
      if ok {
        sessionTerminals := sessionTerminals + [SessionTerminal(sessionId, index, title, shell, workingDir)];
      }
      success := ok;
    }

    /** SELECT the rows of one session. */
    method GetSessionTerminals(sessionId: int, ok: bool) returns (r: Result<seq<SessionTerminal>>)
      ensures ok ==> r == Ok(RowsOf(sessionTerminals, sessionId))
      ensures !ok ==> r.Err?
    {
      if !ok {
        return Err(DbError);
      }
      var rows: seq<SessionTerminal> := [];
      var i := 0;
      while i < |sessionTerminals|
        invariant 0 <= i <= |sessionTerminals|
        invariant rows == RowsOf(sessionTerminals[..i], sessionId)
      {
        RowsOfAppend(sessionTerminals[..i], sessionTerminals[i], sessionId);
        assert sessionTerminals[..i + 1] == sessionTerminals[..i] + [sessionTerminals[i]];
        if sessionTerminals[i].sessionId == sessionId {
          rows := rows + [sessionTerminals[i]];
        }
        i := i + 1;
      }
      assert sessionTerminals[..i] == sessionTerminals;
      r := Ok(rows);
    }
  }
}
