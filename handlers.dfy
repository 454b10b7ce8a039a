/** The HTTP handlers' orchestration over the terminal manager and the database: the layout
    page, layout changes, adding, deleting and renaming terminals, and saving and loading
    sessions. Only the decisions are modelled: a response is what the handler would write. */
module Handlers {
  import opened Wrappers
  import opened Text
  import opened Decimal
  import Store
  import opened Validation
  import opened Terminals

  /** What the layout page shows of a terminal. */
  datatype TerminalView = TerminalView(id: int, port: int, title: string)

  /** What a handler writes: an error page with its status, the terminal container, a bare
      200, a success message, or nothing at all. */
  datatype Response =
    | ErrorPage(status: int, message: string)
    | LayoutPage(views: seq<TerminalView>, layoutType: string)
    | StatusOK
    | SuccessPage(message: string)
    | NoResponse

  function View(t: Terminal): TerminalView {
    TerminalView(t.id, t.port, t.title)
  }

  /** views shows every terminal of m exactly once, as it is. */
  ghost predicate ShowsAll(views: seq<TerminalView>, m: map<int, Terminal>) {
    |views| == |m| &&
    (forall k :: 0 <= k < |views| ==> views[k].id in m && views[k] == View(m[views[k].id])) &&
    (forall id :: id in m ==> exists k :: 0 <= k < |views| && views[k].id == id)
  }

  /** ts lists every terminal of m exactly once, as it is (what GetTerminals returns). */
  ghost predicate IsSnapshot(ts: seq<Terminal>, m: map<int, Terminal>) {
    |ts| == |m| &&
    (forall k :: 0 <= k < |ts| ==> ts[k].id in m && m[ts[k].id] == ts[k]) &&
    (forall j, k :: 0 <= j < k < |ts| ==> ts[j].id != ts[k].id) &&
    (forall id :: id in m ==> exists k :: 0 <= k < |ts| && ts[k].id == id)
  }

  /** The views of a snapshot, position by position, show every terminal once. */
  lemma SnapshotViews(ts: seq<Terminal>, views: seq<TerminalView>, m: map<int, Terminal>)
    requires IsSnapshot(ts, m)
    requires |views| == |ts| && forall k :: 0 <= k < |ts| ==> views[k] == View(ts[k])
    ensures ShowsAll(views, m)
  {
    forall id | id in m ensures exists k :: 0 <= k < |views| && views[k].id == id {
      var k :| 0 <= k < |ts| && ts[k].id == id;
      assert views[k].id == id;
    }
  }

  /** handleGetLayout: the live terminals and the stored layout type; a failed read of the
      layout is a 500. */
  method HandleGetLayout(tm: TerminalManager, layoutRead: bool) returns (resp: Response)
    requires tm.Valid()
    ensures !layoutRead ==> resp == ErrorPage(500, "Failed to get layout")
    ensures layoutRead ==> resp.LayoutPage? && resp.layoutType == tm.db.layout.layoutType
    ensures layoutRead ==> ShowsAll(resp.views, tm.terminals)
  {
    var ts := tm.GetTerminals();
    var layout := tm.db.GetActiveLayout(layoutRead);
    if layout.Err? {
      return ErrorPage(500, "Failed to get layout");
    }
    var views: seq<TerminalView> := [];
    var i := 0;
    while i < |ts|
      invariant 0 <= i <= |ts| && |views| == i
      invariant forall k :: 0 <= k < i ==> views[k] == View(ts[k])
    {
      views := views + [View(ts[i])];
      i := i + 1;
    }
    SnapshotViews(ts, views, tm.terminals);
    resp := LayoutPage(views, layout.value.layoutType);
  }

  /** applyLayoutAndRespond: an invalid layout type is refused before the manager is touched;
      a failed ApplyLayout is a 500; otherwise the layout page follows. */
  method ApplyLayoutAndRespond(tm: TerminalManager, layoutType: string, envs: nat -> SpawnEnv,
                               deleted: nat -> bool, layoutSaved: bool, layoutRead: bool)
    returns (resp: Response)
    requires tm.Valid()
    modifies tm, tm.pool, tm.db
    ensures tm.Valid()
    ensures ValidateLayoutType(layoutType).Some? ==> resp == ErrorPage(500, "Invalid layout type")
    ensures ValidateLayoutType(layoutType).Some? ==>
      tm.terminals == old(tm.terminals) && tm.nextID == old(tm.nextID) && unchanged(tm.db) && unchanged(tm.pool)
    ensures ValidateLayoutType(layoutType).None? && resp != ErrorPage(500, "Failed to apply layout") ==>
      |tm.terminals| == CountForLayout(layoutType) &&
      tm.db.layout == Store.ActiveLayout(layoutType, CountForLayout(layoutType))
    ensures resp.LayoutPage? ==> resp.layoutType == layoutType && ShowsAll(resp.views, tm.terminals)
    ensures ValidateLayoutType(layoutType).None? && CountForLayout(layoutType) <= |old(tm.terminals)| && layoutSaved ==>
      resp != ErrorPage(500, "Failed to apply layout")
  {
    if ValidateLayoutType(layoutType).Some? {
      return ErrorPage(500, "Invalid layout type");
    }
    var err := tm.ApplyLayout(layoutType, envs, deleted, layoutSaved);
    if err.Some? {
      return ErrorPage(500, "Failed to apply layout");
    }
    resp := HandleGetLayout(tm, layoutRead);
  }

  /** handleAddTerminal: one more terminal titled after the live count, running /bin/bash
      with no working directory. */
  method HandleAddTerminal(tm: TerminalManager, env: SpawnEnv, layoutRead: bool) returns (resp: Response)
    requires tm.Valid()
    modifies tm, tm.pool, tm.db
    ensures tm.Valid()
    ensures SpawnSucceeds(old(tm.pool.used), env) <==> resp != ErrorPage(500, "Failed to add terminal")
    ensures !SpawnSucceeds(old(tm.pool.used), env) ==> tm.terminals == old(tm.terminals) && tm.nextID == old(tm.nextID)
    ensures SpawnSucceeds(old(tm.pool.used), env) ==>
      old(tm.nextID) in tm.terminals && tm.nextID == old(tm.nextID) + 1 &&
      tm.terminals == old(tm.terminals)[old(tm.nextID) := tm.terminals[old(tm.nextID)]] &&
      Spec(tm.terminals[old(tm.nextID)].title, tm.terminals[old(tm.nextID)].shell, tm.terminals[old(tm.nextID)].workingDir)
        == Spec(DefaultTitle(|old(tm.terminals)|), "/bin/bash", "")
    ensures resp.LayoutPage? ==> ShowsAll(resp.views, tm.terminals)
  {
    var ts := tm.GetTerminals();
    var title := DefaultTitle(|ts|);
    var t := tm.SpawnTerminal(title, "/bin/bash", "", env);
    if t.Err? {
      return ErrorPage(500, "Failed to add terminal");
    }
    resp := HandleGetLayout(tm, layoutRead);
  }

  const ActionPrefix: string := "/api/terminal/"

  /** The '/'-separated segments after "/api/terminal/". */
  function ActionParts(path: string): (parts: seq<string>)
    ensures |parts| >= 1
  {
    Split(TrimPrefix(path, ActionPrefix), '/')
  }

  /** The terminal ID of an action path: its first segment, as Atoi reads it. */
  function ActionId(path: string): Option<int> {
    Atoi(ActionParts(path)[0])
  }

  predicate IsRename(path: string) {
    |ActionParts(path)| > 1 && ActionParts(path)[1] == "rename"
  }

  /** The paths the UI builds parse back: "/api/terminal/<id>" and "/api/terminal/<id>/rename"
      carry id, and only the latter is a rename. */
  lemma ActionPathParses(id: int, rename: bool)
    requires Int64Min <= id <= Int64Max
    ensures var path := ActionPrefix + Join(if rename then [IntToString(id), "rename"] else [IntToString(id)], '/');
      ActionId(path) == Some(id) && (IsRename(path) <==> rename)
  {
    var seg := IntToString(id);
    assert '/' !in seg by {
      if id < 0 {
        assert forall i :: 1 <= i < |seg| ==> seg[i] == NatToString(-id)[i - 1];
      }
    }
    var parts := if rename then [seg, "rename"] else [seg];
    var path := ActionPrefix + Join(parts, '/');
    assert path[..|ActionPrefix|] == ActionPrefix;
    assert TrimPrefix(path, ActionPrefix) == Join(parts, '/');
    SplitJoin(parts, '/');
    AtoiIntToString(id);
  }

  /** handleTerminalAction: the ID comes from the first segment after "/api/terminal/";
      DELETE kills the terminal; POST to ".../rename" sanitises, then validates the new title,
      then looks up the terminal, retitles it and, when it has a database row, updates that
      row (a failure is only logged). Any response but a bare 200 leaves all state as it was. */
  method HandleTerminalAction(tm: TerminalManager, path: string, httpMethod: string, form: Result<string>,
                              deleted: bool, titleSaved: bool)
    returns (resp: Response)
    requires tm.Valid()
    modifies tm, tm.pool, tm.db
    ensures tm.Valid()
    ensures ActionId(path).None? ==> resp == ErrorPage(400, "Invalid terminal ID")
    ensures ActionId(path).Some? && ActionId(path).value < 0 ==> resp == ErrorPage(500, "Invalid terminal ID")
    ensures resp != StatusOK ==>
      tm.terminals == old(tm.terminals) && tm.pool.used == old(tm.pool.used) && unchanged(tm.db)
    ensures tm.nextID == old(tm.nextID)
    ensures (ActionId(path).Some? && ActionId(path).value >= 0 && httpMethod == "DELETE") ==>
      var id := ActionId(path).value;
      resp == (if id in old(tm.terminals) then StatusOK else ErrorPage(500, "Failed to delete terminal")) &&
      tm.terminals == old(tm.terminals) - {id}
    ensures (ActionId(path).Some? && ActionId(path).value >= 0 && httpMethod == "POST" && IsRename(path)) ==>
      resp == RenameOutcome(ActionId(path).value, form, old(tm.terminals))
    ensures resp == StatusOK && httpMethod != "DELETE" ==>
      form.Ok? && Retitled(old(tm.terminals), tm.terminals, old(tm.db.activeTerminals), tm.db.activeTerminals,
                           ActionId(path).value, SanitizeString(form.value), titleSaved)
    ensures (ActionId(path).Some? && ActionId(path).value >= 0 && httpMethod != "DELETE" &&
             !(httpMethod == "POST" && IsRename(path))) ==> resp == NoResponse
  {
    var parts := Split(TrimPrefix(path, ActionPrefix), '/');
    var parsed := Atoi(parts[0]);
    if parsed.None? {
      return ErrorPage(400, "Invalid terminal ID");
    }
    var id := parsed.value;
    if ValidateTerminalID(id).Some? {
      return ErrorPage(500, "Invalid terminal ID");
    }
    if httpMethod == "DELETE" {
      var err := tm.KillTerminal(id, deleted);
      if err.Some? {
        return ErrorPage(500, "Failed to delete terminal");
      }
      return StatusOK;
    }
    if httpMethod == "POST" && |parts| > 1 && parts[1] == "rename" {
      resp := Rename(tm, id, form, titleSaved);
      return;
    }
    resp := NoResponse;
  }

  /** The answer to a rename: a form that does not parse, a title that fails validation after
      sanitising, or an unknown terminal is refused; anything else succeeds. */
  function RenameOutcome(id: int, form: Result<string>, m: map<int, Terminal>): (resp: Response)
    ensures resp == StatusOK <==>
      form.Ok? && ValidateTerminalTitle(SanitizeString(form.value)).None? && id in m
  {
    if form.Err? then ErrorPage(500, "Failed to parse form")
    else if ValidateTerminalTitle(SanitizeString(form.value)).Some? then ErrorPage(500, "Invalid terminal title")
    else if id !in m then ErrorPage(404, "Terminal not found")
    else StatusOK
  }

  /** Terminal id of m0 is m0's terminal with the new title, and nothing else changed; its
      database row, if it has one and the write succeeds, gets the new title too. */
  ghost predicate Retitled(m0: map<int, Terminal>, m: map<int, Terminal>,
                           rows0: map<int, Store.ActiveTerminal>, rows: map<int, Store.ActiveTerminal>,
                           id: int, title: string, saved: bool) {
    id in m0 && m == m0[id := m0[id].(title := title)] &&
    var dbId := m0[id].dbId;
    rows == if dbId > 0 && saved && dbId in rows0 then rows0[dbId := rows0[dbId].(title := title)] else rows0
  }

  /** The rename branch of handleTerminalAction. */
  method Rename(tm: TerminalManager, id: int, form: Result<string>, titleSaved: bool) returns (resp: Response)
    requires tm.Valid()
    modifies tm, tm.db
    ensures tm.Valid()
    ensures resp == RenameOutcome(id, form, old(tm.terminals))
    ensures resp != StatusOK ==> tm.terminals == old(tm.terminals) && unchanged(tm.db)
    ensures tm.nextID == old(tm.nextID)
    ensures resp == StatusOK ==>
      form.Ok? && Retitled(old(tm.terminals), tm.terminals, old(tm.db.activeTerminals), tm.db.activeTerminals,
                           id, SanitizeString(form.value), titleSaved)
  {
    resp := RenameOutcome(id, form, tm.terminals);
    if resp == StatusOK {
      Retitle(tm, id, SanitizeString(form.value), titleSaved);
    }
  }

  /** The accepted rename: the in-place title write, then the row update when there is a row. */
  method Retitle(tm: TerminalManager, id: int, title: string, titleSaved: bool)
    requires tm.Valid() && id in tm.terminals
    modifies tm, tm.db
    ensures tm.Valid()
    ensures tm.nextID == old(tm.nextID)
    ensures Retitled(old(tm.terminals), tm.terminals, old(tm.db.activeTerminals), tm.db.activeTerminals, id, title, titleSaved)
  {
    var t := tm.GetTerminal(id);
    tm.SetTitle(id, title);
    if t.value.dbId > 0 {
      var _ := tm.db.UpdateActiveTerminalTitle(t.value.dbId, title, titleSaved);
    }
  }

  /** A renamed terminal's title is a valid title that sanitising leaves alone. */
  lemma RenamedTitleIsClean(id: int, form: Result<string>, m: map<int, Terminal>)
    requires RenameOutcome(id, form, m) == StatusOK
    ensures MatchesNamePattern(SanitizeString(form.value))
    ensures SanitizeString(SanitizeString(form.value)) == SanitizeString(form.value)
  {
    SanitizedTitleRule(form.value);
    SanitizeIdempotent(form.value);
  }

  /** The save-session form: its name and description fields. */
  datatype SessionForm = SessionForm(name: string, description: string)

  /** The session rows written for the terminals ts of session sid: terminal i is row index i,
      and only the writes whose outcome saves(i) is true take effect. */
  function SavedRows(sid: int, ts: seq<Terminal>, saves: nat -> bool): (rows: seq<Store.SessionTerminal>)
    ensures |rows| <= |ts|
    ensures forall k :: 0 <= k < |rows| ==> rows[k].sessionId == sid
    decreases |ts|
  {
    if ts == [] then []
    else
      var n := |ts| - 1;
      SavedRows(sid, ts[..n], saves) +
        (if saves(n) then [Store.SessionTerminal(sid, n, ts[n].title, ts[n].shell, ts[n].workingDir)] else [])
  }

  /** One more position of the save loop: SavedRows grows by that position's row, if saved. */
  lemma SavedRowsSnoc(sid: int, ts: seq<Terminal>, saves: nat -> bool, i: nat)
    requires i < |ts|
    ensures SavedRows(sid, ts[..i + 1], saves) == SavedRows(sid, ts[..i], saves) +
      (if saves(i) then [Store.SessionTerminal(sid, i, ts[i].title, ts[i].shell, ts[i].workingDir)] else [])
  {
    assert ts[..i + 1][..i] == ts[..i];
  }

  /** When every write succeeds, row k is terminal k of the snapshot with index k. */
  lemma {:induction false} SavedRowsAll(sid: int, ts: seq<Terminal>, saves: nat -> bool)
    requires forall i :: 0 <= i < |ts| ==> saves(i)
    ensures |SavedRows(sid, ts, saves)| == |ts|
    ensures forall k :: 0 <= k < |ts| ==>
      SavedRows(sid, ts, saves)[k] == Store.SessionTerminal(sid, k, ts[k].title, ts[k].shell, ts[k].workingDir)
    decreases |ts|
  {
    if ts != [] {
      var n := |ts| - 1;
      SavedRowsAll(sid, ts[..n], saves);
      forall k | 0 <= k < n ensures ts[..n][k] == ts[k] {
      }
    }
  }

  /** Whatever writes fail, the saved rows carry indices below |ts| in strictly increasing order,
      so insertion order is the order by terminal index. */
  lemma {:induction false} SavedRowsIncreasing(sid: int, ts: seq<Terminal>, saves: nat -> bool)
    ensures forall k :: 0 <= k < |SavedRows(sid, ts, saves)| ==> 0 <= SavedRows(sid, ts, saves)[k].terminalIndex < |ts|
    ensures forall j, k :: 0 <= j < k < |SavedRows(sid, ts, saves)| ==>
      SavedRows(sid, ts, saves)[j].terminalIndex < SavedRows(sid, ts, saves)[k].terminalIndex
    decreases |ts|
  {
    if ts != [] {
      var n := |ts| - 1;
      SavedRowsIncreasing(sid, ts[..n], saves);
    }
  }

  /** Reading back a session whose ID no earlier row carries gives exactly the rows saved for it. */
  lemma SaveThenRead(rows: seq<Store.SessionTerminal>, sid: int, ts: seq<Terminal>, saves: nat -> bool)
    requires forall k :: 0 <= k < |rows| ==> rows[k].sessionId != sid
    ensures Store.RowsOf(rows + SavedRows(sid, ts, saves), sid) == SavedRows(sid, ts, saves)
  {
    var saved := SavedRows(sid, ts, saves);
    Store.RowsOfConcat(rows, saved, sid);
    Store.RowsOfNone(rows, sid);
    Store.RowsOfAll(saved, sid);
  }

  /** The session row a form asks for: its name and description, sanitised. */
  function Sanitized(form: SessionForm): Store.SessionRow {
    Store.SessionRow(SanitizeString(form.name), SanitizeString(form.description))
  }

  /** The refusal of a save request before anything is written: a form that does not parse,
      then an invalid sanitised name, then an invalid sanitised description. */
  function SaveRefusal(form: Result<SessionForm>): (r: Option<Response>)
    ensures r.None? <==> form.Ok? && ValidateSessionName(SanitizeString(form.value.name)).None? &&
                         ValidateSessionDescription(SanitizeString(form.value.description)).None?
  {
    if form.Err? then Some(ErrorPage(500, "Failed to parse form"))
    else if ValidateSessionName(SanitizeString(form.value.name)).Some? then Some(ErrorPage(500, "Invalid session name"))
    else if ValidateSessionDescription(SanitizeString(form.value.description)).Some? then
      Some(ErrorPage(500, "Invalid session description"))
    else None
  }

  /** The name is checked before the description: a form with both invalid is refused for
      its name. */
  lemma NameCheckedFirst(form: Result<SessionForm>)
    requires form.Ok? && ValidateSessionName(SanitizeString(form.value.name)).Some?
    ensures SaveRefusal(form) == Some(ErrorPage(500, "Invalid session name"))
  {
  }

  /** handleSaveSession: the form must parse; the sanitised name, then the sanitised
      description, must validate; the session row is created; then terminal i of a snapshot
      is saved with index i, a failed write being only logged. The terminals are untouched. */
  method HandleSaveSession(tm: TerminalManager, form: Result<SessionForm>, created: bool, saves: nat -> bool)
    returns (resp: Response, snapshot: seq<Terminal>)
    requires tm.Valid()
    modifies tm.db
    ensures tm.Valid()
    ensures SaveRefusal(form).Some? ==> resp == SaveRefusal(form).value
    ensures SaveRefusal(form).None? && !created ==> resp == ErrorPage(500, "Failed to save session")
    ensures SaveRefusal(form).Some? || !created ==>
      tm.db.sessions == old(tm.db.sessions) && tm.db.lastSessionRow == old(tm.db.lastSessionRow) &&
      tm.db.sessionTerminals == old(tm.db.sessionTerminals)
    ensures resp.SuccessPage? <==> SaveRefusal(form).None? && created
    ensures resp.SuccessPage? ==>
      form.Ok? && resp == SuccessPage("Session saved successfully") &&
      tm.db.sessions == old(tm.db.sessions)[old(tm.db.lastSessionRow) + 1 := Sanitized(form.value)] &&
      tm.db.sessionTerminals == old(tm.db.sessionTerminals) + SavedRows(old(tm.db.lastSessionRow) + 1, snapshot, saves) &&
      IsSnapshot(snapshot, tm.terminals)
    ensures tm.db.layout == old(tm.db.layout) && tm.db.activeTerminals == old(tm.db.activeTerminals)
  {
    snapshot := [];
    var refusal := SaveRefusal(form);
    if refusal.Some? {
      return refusal.value, snapshot;
    }
    var saved;
    saved, snapshot := CreateAndSave(tm, Sanitized(form.value), created, saves);
    resp := if saved then SuccessPage("Session saved successfully") else ErrorPage(500, "Failed to save session");
  }

  /** Create the session row, then save the snapshot under its new id; a failed create writes nothing. */
  method CreateAndSave(tm: TerminalManager, row: Store.SessionRow, created: bool, saves: nat -> bool)
    returns (saved: bool, snapshot: seq<Terminal>)
    requires tm.Valid()
    modifies tm.db
    ensures tm.Valid()
    ensures saved == created
    ensures !saved ==>
      tm.db.sessions == old(tm.db.sessions) && tm.db.lastSessionRow == old(tm.db.lastSessionRow) &&
      tm.db.sessionTerminals == old(tm.db.sessionTerminals)
    ensures saved ==>
      tm.db.sessions == old(tm.db.sessions)[old(tm.db.lastSessionRow) + 1 := row] &&
      tm.db.sessionTerminals == old(tm.db.sessionTerminals) + SavedRows(old(tm.db.lastSessionRow) + 1, snapshot, saves) &&
      IsSnapshot(snapshot, tm.terminals)
    ensures tm.db.layout == old(tm.db.layout) && tm.db.activeTerminals == old(tm.db.activeTerminals)
  {
    snapshot := [];
    var sid := tm.db.CreateSession(row.name, row.description, created);
    if sid.Err? {
      return false, snapshot;
    }
    snapshot := SaveSnapshot(tm, sid.value, saves);
    saved := true;
  }

  /** The snapshot of the live terminals, saved row by row into session sid. */
  method SaveSnapshot(tm: TerminalManager, sid: int, saves: nat -> bool) returns (snapshot: seq<Terminal>)
    requires tm.Valid()
    modifies tm.db
    ensures tm.Valid()
    ensures tm.db.sessionTerminals == old(tm.db.sessionTerminals) + SavedRows(sid, snapshot, saves)
    ensures tm.db.sessions == old(tm.db.sessions) && tm.db.lastSessionRow == old(tm.db.lastSessionRow)
    ensures tm.db.layout == old(tm.db.layout) && tm.db.activeTerminals == old(tm.db.activeTerminals)
    ensures IsSnapshot(snapshot, tm.terminals)
  {
    snapshot := tm.GetTerminals();
    SaveRows(tm.db, sid, snapshot, saves);
  }

  /** The save loop: terminal i of ts is written as row index i with outcome saves(i). */
  method SaveRows(db: Store.Database, sid: int, ts: seq<Terminal>, saves: nat -> bool)
    requires db.Valid()
    modifies db
    ensures db.Valid()
    ensures db.sessionTerminals == old(db.sessionTerminals) + SavedRows(sid, ts, saves)
    ensures db.sessions == old(db.sessions) && db.lastSessionRow == old(db.lastSessionRow)
    ensures db.layout == old(db.layout) && db.activeTerminals == old(db.activeTerminals)
    ensures db.lastTerminalRow == old(db.lastTerminalRow)
  {
    var i := 0;
    while i < |ts|
      invariant 0 <= i <= |ts| && db.Valid()
      invariant db.sessionTerminals == old(db.sessionTerminals) + SavedRows(sid, ts[..i], saves)
      invariant db.sessions == old(db.sessions) && db.lastSessionRow == old(db.lastSessionRow)
      invariant db.layout == old(db.layout) && db.activeTerminals == old(db.activeTerminals)
      invariant db.lastTerminalRow == old(db.lastTerminalRow)
    {
      var _ := db.SaveSessionTerminal(sid, i, ts[i].title, ts[i].shell, ts[i].workingDir, saves(i));
      SavedRowsSnoc(sid, ts, saves, i);
      i := i + 1;
    }
    assert ts[..|ts|] == ts;
  }

  const LoadPrefix: string := "/api/session/load/"

  /** The session ID of a load path: the rest of the path after the prefix, as Atoi reads it. */
  function LoadSessionId(path: string): Option<int> {
    Atoi(TrimPrefix(path, LoadPrefix))
  }

  /** What a stored session row asks a spawn for. */
  function SpecsOf(rows: seq<Store.SessionTerminal>): (specs: seq<Spec>)
    ensures |specs| == |rows|
    ensures forall k :: 0 <= k < |rows| ==> specs[k] == Spec(rows[k].title, rows[k].shell, rows[k].workingDir)
  {
    seq(|rows|, k requires 0 <= k < |rows| => Spec(rows[k].title, rows[k].shell, rows[k].workingDir))
  }

  /** A session saved with every write succeeding, into a fresh session ID, loads back the
      snapshot's titles, shells and working directories in snapshot order. */
  lemma SaveLoadRoundTrip(rows: seq<Store.SessionTerminal>, sid: int, ts: seq<Terminal>, saves: nat -> bool)
    requires forall k :: 0 <= k < |rows| ==> rows[k].sessionId != sid
    requires forall i :: 0 <= i < |ts| ==> saves(i)
    ensures |SpecsOf(Store.RowsOf(rows + SavedRows(sid, ts, saves), sid))| == |ts|
    ensures forall k :: 0 <= k < |ts| ==>
      SpecsOf(Store.RowsOf(rows + SavedRows(sid, ts, saves), sid))[k] == Spec(ts[k].title, ts[k].shell, ts[k].workingDir)
  {
    SaveThenRead(rows, sid, ts, saves);
    SavedRowsAll(sid, ts, saves);
  }

  /** The layout stored after a load: the session's own type when it could be read and is
      non-empty, else "grid" for more than two terminals and "horizontal" otherwise. */
  function LayoutFallback(stored: Result<string>, n: nat): string {
    if stored.Ok? && stored.value != "" then stored.value
    else if n > 2 then "grid" else "horizontal"
  }

  /** The fallback is a valid layout type, and for up to four terminals its own count covers
      them all: it is the smallest layout that does. */
  lemma FallbackFits(stored: Result<string>, n: nat)
    requires !(stored.Ok? && stored.value != "")
    ensures ValidateLayoutType(LayoutFallback(stored, n)).None?
    ensures n <= 4 ==> n <= CountForLayout(LayoutFallback(stored, n))
    ensures n <= 2 ==> CountForLayout(LayoutFallback(stored, n)) == 2
    ensures n > 2 ==> CountForLayout(LayoutFallback(stored, n)) == 4
  {
  }

  /** Killing the terminals a failed spawn run added gives back the map from before the run. */
  lemma Rollback(m0: map<int, Terminal>, m1: map<int, Terminal>, m2: map<int, Terminal>, base: int, spawned: seq<Terminal>)
    requires WellFormed(m0, base)
    requires KeysFrom(m0, m1, base, base + |spawned|) && Keeps(m0, m1)
    requires forall j :: 0 <= j < |spawned| ==> spawned[j].id == base + j
    requires forall id :: id in m2 <==> id in m1 && id !in IdSet(spawned)
    requires forall id :: id in m2 ==> m2[id] == m1[id]
    ensures m2 == m0
  {
    forall id ensures id in m2 <==> id in m0 {
      if base <= id < base + |spawned| {
        assert spawned[id - base].id == id;
      }
    }
    forall id | id in m2 ensures m2[id] == m0[id] {
    }
  }

  /** Killing a full snapshot of the terminals from before a spawn run leaves exactly the run. */
  lemma OnlyNewRemain(m0: map<int, Terminal>, m1: map<int, Terminal>, m2: map<int, Terminal>,
                      base: int, next: int, snap: seq<Terminal>, specs: seq<Spec>)
    requires WellFormed(m0, base)
    requires KeysFrom(m0, m1, base, next) && FollowSpecs(m0, m1, base, specs)
    requires forall k :: 0 <= k < |snap| ==> snap[k].id in m0
    requires forall id :: id in m0 ==> exists k :: 0 <= k < |snap| && snap[k].id == id
    requires forall id :: id in m2 <==> id in m1 && id !in IdSet(snap)
    requires forall id :: id in m2 ==> m2[id] == m1[id]
    ensures forall id :: id in m2 <==> base <= id < next
    ensures FollowSpecs(map[], m2, base, specs)
  {
    forall id ensures id in m2 <==> base <= id < next {
      if id in m0 {
        var k :| 0 <= k < |snap| && snap[k].id == id;
      }
      if id in IdSet(snap) {
        var k :| 0 <= k < |snap| && snap[k].id == id;
      }
    }
  }

  /** The core of handleLoadSession: spawn every spec first; on a failure kill the ones spawned
      (the old terminals stay as they were); otherwise kill a snapshot of the old terminals
      taken before, which leaves exactly the new ones. */
  method ReplaceTerminals(tm: TerminalManager, specs: seq<Spec>, envs: nat -> SpawnEnv,
                          rollbackDeleted: nat -> bool, oldDeleted: nat -> bool)
    returns (ok: bool)
    requires tm.Valid()
    modifies tm, tm.pool, tm.db
    ensures tm.Valid()
    ensures !ok ==> tm.terminals == old(tm.terminals) && tm.nextID >= old(tm.nextID)
    ensures ok ==> tm.nextID == old(tm.nextID) + |specs|
    ensures ok ==> forall id :: id in tm.terminals <==> old(tm.nextID) <= id < tm.nextID
    ensures ok ==> FollowSpecs(map[], tm.terminals, old(tm.nextID), specs)
    ensures (|old(tm.terminals)| + |specs| <= 101 &&
             forall k :: 0 <= k < |specs| ==> envs(k).random.Ok? && envs(k).start.Ok?) ==> ok
    ensures tm.db.layout == old(tm.db.layout) && tm.db.sessions == old(tm.db.sessions)
    ensures tm.db.sessionTerminals == old(tm.db.sessionTerminals) && tm.db.lastSessionRow == old(tm.db.lastSessionRow)
  {
    var oldTerminals := tm.GetTerminals();
    var failed, spawned := tm.SpawnAll(specs, envs);
    ghost var m1 := tm.terminals;
    if failed.Some? {
      tm.KillEach(spawned, rollbackDeleted);
      Rollback(old(tm.terminals), m1, tm.terminals, old(tm.nextID), spawned);
      return false;
    }
    tm.KillEach(oldTerminals, oldDeleted);
    OnlyNewRemain(old(tm.terminals), m1, tm.terminals, old(tm.nextID), tm.nextID, oldTerminals, specs);
    ok := true;
  }

  /** handleLoadSession: parse and validate the session ID, read its rows, replace the live
      terminals by terminals for those rows, store the layout (the session's type or the
      fallback, and the row count; a failed write is ignored) and show the layout page. */
  method HandleLoadSession(tm: TerminalManager, path: string, rowsRead: bool, envs: nat -> SpawnEnv,
                           rollbackDeleted: nat -> bool, oldDeleted: nat -> bool,
                           storedLayout: Result<string>, layoutSaved: bool, layoutRead: bool)
    returns (resp: Response)
    requires tm.Valid()
    modifies tm, tm.pool, tm.db
    ensures tm.Valid()
    ensures LoadSessionId(path).None? ==> resp == ErrorPage(400, "Invalid session ID")
    ensures LoadSessionId(path).Some? && LoadSessionId(path).value < 1 ==> resp == ErrorPage(500, "Invalid session ID")
    ensures LoadSessionId(path).Some? && LoadSessionId(path).value >= 1 && !rowsRead ==>
      resp == ErrorPage(500, "Failed to load session")
    ensures resp == ErrorPage(400, "Invalid session ID") || resp == ErrorPage(500, "Invalid session ID") ||
            resp == ErrorPage(500, "Failed to load session") ==>
      tm.terminals == old(tm.terminals) && tm.nextID == old(tm.nextID) && unchanged(tm.db)
    ensures resp == ErrorPage(500, "Failed to spawn new terminals for session") ==>
      tm.terminals == old(tm.terminals) && tm.db.layout == old(tm.db.layout)
    ensures (LoadSessionId(path).Some? && LoadSessionId(path).value >= 1 && rowsRead &&
             resp != ErrorPage(500, "Failed to spawn new terminals for session")) ==>
      var specs := SpecsOf(Store.RowsOf(old(tm.db.sessionTerminals), LoadSessionId(path).value));
      tm.nextID == old(tm.nextID) + |specs| &&
      (forall id :: id in tm.terminals <==> old(tm.nextID) <= id < tm.nextID) &&
      FollowSpecs(map[], tm.terminals, old(tm.nextID), specs) &&
      tm.db.layout == (if layoutSaved then Store.ActiveLayout(LayoutFallback(storedLayout, |specs|), |specs|)
                       else old(tm.db.layout))
    ensures (LoadSessionId(path).Some? && LoadSessionId(path).value >= 1 && rowsRead &&
             |old(tm.terminals)| + |Store.RowsOf(old(tm.db.sessionTerminals), LoadSessionId(path).value)| <= 101 &&
             forall k :: 0 <= k < |Store.RowsOf(old(tm.db.sessionTerminals), LoadSessionId(path).value)| ==>
               envs(k).random.Ok? && envs(k).start.Ok?) ==>
      resp != ErrorPage(500, "Failed to spawn new terminals for session")
    ensures resp.LayoutPage? ==> ShowsAll(resp.views, tm.terminals)
  {
    var parsed := Atoi(TrimPrefix(path, LoadPrefix));
    if parsed.None? {
      return ErrorPage(400, "Invalid session ID");
    }
    var sid := parsed.value;
    if ValidateSessionID(sid).Some? {
      return ErrorPage(500, "Invalid session ID");
    }
    var rows := tm.db.GetSessionTerminals(sid, rowsRead);
    if rows.Err? {
      return ErrorPage(500, "Failed to load session");
    }
    var ok := ReplaceTerminals(tm, SpecsOf(rows.value), envs, rollbackDeleted, oldDeleted);
    if !ok {
      return ErrorPage(500, "Failed to spawn new terminals for session");
    }
    var layoutType := LayoutFallback(storedLayout, |rows.value|);
    var _ := tm.db.UpdateActiveLayout(layoutType, |rows.value|, layoutSaved);
    resp := HandleGetLayout(tm, layoutRead);
  }
}
