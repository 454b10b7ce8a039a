/** The terminal manager: the live terminals keyed by ID, the ID counter and the port pool. */
module Terminals {
  import opened Wrappers
  import opened Decimal
  import Base64
  import Ports
  import Store

  type Bytes16 = b: seq<bv8> | |b| == 16 witness seq(16, i => 0 as bv8)

  datatype Terminal = Terminal(
    id: int,
    dbId: int,
    port: int,
    title: string,
    shell: string,
    workingDir: string,
    credential: string,
    pid: int,
    createdAt: int)

  /** The outcomes of the effects one spawn depends on: the random source, the start of the
      backend process (its PID or an error), the database insert, and the clock. */
  datatype SpawnEnv = SpawnEnv(random: Result<Bytes16>, start: Result<int>, saved: bool, now: int)

  /** One attempted start of a backend process: its argv and its working directory. */
  datatype Launch = Launch(argv: seq<string>, dir: string)

  const MinPort: int := 8081
  const MaxPort: int := 8181

  /** "term:" followed by the padded base64url text of 16 random bytes (RFC 4648 section 5). */
  function Credential(b: Bytes16): string {
    "term:" + Base64.EncodeUrl(b)
  }

  /** A credential is 29 characters: "term:", 22 characters of the URL-safe alphabet and "==". */
  lemma CredentialShape(b: Bytes16)
    ensures |Credential(b)| == 29 && Credential(b)[..5] == "term:"
    ensures forall i :: 5 <= i < 27 ==> Credential(b)[i] in Base64.UrlAlphabet
    ensures Credential(b)[27..] == "=="
  {
    var enc := Base64.EncodeUrl(b);
    Base64.EncodeShape(Base64.UrlAlphabet, b);
    assert |enc| == 24 && Base64.Padding(16) == 2;
    var c := Credential(b);
    assert c[5..] == enc;
    forall i | 5 <= i < 27 ensures c[i] in Base64.UrlAlphabet {
      assert c[i] == enc[i - 5];
    }
    assert c[27] == enc[22] && c[28] == enc[23];
  }

  /** generateCredential: a failing random source is an error. */
  function GenerateCredential(random: Result<Bytes16>): (r: Result<string>)
    ensures random.Err? <==> r.Err?
    ensures r.Ok? ==> r.value == Credential(random.value)
  {
    match random
    case Err(e) => Err(e)
    case Ok(b) => Ok(Credential(b))
  }

  /** getTerminalCountForLayout: a grid has four panes, every other layout two. */
  function CountForLayout(layoutType: string): (n: int)
    ensures n == 4 <==> layoutType == "grid"
    ensures n == 2 <==> layoutType != "grid"
  {
    match layoutType
    case "horizontal" => 2
    case "vertical" => 2
    case "grid" => 4
    case _ => 2
  }

  /** The argv that starts the GoTTY binary for a terminal. */
  function GottyArgv(port: int, title: string, credential: string, shell: string): (argv: seq<string>)
    ensures |argv| == 14 && argv[0] == "gotty" && argv[13] == shell
    ensures argv[1] == "--port" && argv[2] == IntToString(port)
    ensures argv[3] == "--address" && argv[4] == "localhost"
    ensures argv[5..9] == ["--permit-write", "--reconnect", "--reconnect-time", "10"]
    ensures argv[9] == "--title-format" && argv[10] == title
    ensures argv[11] == "--credential" && argv[12] == credential
  {
    ["gotty", "--port", IntToString(port), "--address", "localhost", "--permit-write",
     "--reconnect", "--reconnect-time", "10", "--title-format", title, "--credential", credential, shell]
  }

  /** The port written in the argv parses back to the port the terminal was given. */
  lemma GottyArgvPort(port: int, title: string, credential: string, shell: string)
    requires Int64Min <= port <= Int64Max
    ensures Atoi(GottyArgv(port, title, credential, shell)[2]) == Some(port)
  {
    AtoiIntToString(port);
  }

  /** The ports held by the terminals of a map. */
  function LivePorts(m: map<int, Terminal>): set<int> {
    set id | id in m :: m[id].port
  }

  /** The database rows of the terminals of a map that have one. */
  function DbIds(m: map<int, Terminal>): set<int> {
    set id | id in m && m[id].dbId > 0 :: m[id].dbId
  }

  /** Removing a terminal removes exactly its port, since no other terminal holds it. */
  lemma LivePortsRemove(m: map<int, Terminal>, id: int)
    requires id in m
    requires forall i, j :: i in m && j in m && i != j ==> m[i].port != m[j].port
    ensures LivePorts(m - {id}) == LivePorts(m) - {m[id].port}
  {
    forall p | p in LivePorts(m) - {m[id].port} ensures p in LivePorts(m - {id}) {
      var i :| i in m && m[i].port == p;
      assert i != id && i in m - {id};
    }
  }

  /** Registering a terminal under a new ID adds its port. */
  lemma LivePortsAdd(m: map<int, Terminal>, id: int, t: Terminal)
    requires id !in m
    ensures LivePorts(m[id := t]) == LivePorts(m) + {t.port}
  {
    forall p | p in LivePorts(m) ensures p in LivePorts(m[id := t]) {
      var i :| i in m && m[i].port == p;
      assert i != id && i in m[id := t];
    }
    assert t.port in LivePorts(m[id := t]) by { assert id in m[id := t]; }
  }

  /** Replacing a terminal by one with the same port keeps the ports. */
  lemma LivePortsReplace(m: map<int, Terminal>, id: int, t: Terminal)
    requires id in m && t.port == m[id].port
    ensures LivePorts(m[id := t]) == LivePorts(m)
  {
    forall p | p in LivePorts(m) ensures p in LivePorts(m[id := t]) {
      var i :| i in m && m[i].port == p;
      assert i in m[id := t];
    }
  }

  /** With distinct ports, the terminals hold as many ports as there are terminals. */
  lemma {:induction false} LivePortsSize(m: map<int, Terminal>)
    requires forall i, j :: i in m && j in m && i != j ==> m[i].port != m[j].port
    ensures |LivePorts(m)| == |m|
    decreases |m|
  {
    if |m| > 0 {
      var id :| id in m;
      LivePortsRemove(m, id);
      LivePortsSize(m - {id});
      assert m[id].port in LivePorts(m);
    }
  }

  /** The manager can spawn (a port is free) exactly while fewer than 101 terminals are live:
      8081..8181 is the only capacity limit. */
  lemma PortFreeIffBelowCapacity(m: map<int, Terminal>, used: set<int>)
    requires used == LivePorts(m)
    requires forall p :: p in used ==> MinPort <= p <= MaxPort
    requires forall i, j :: i in m && j in m && i != j ==> m[i].port != m[j].port
    ensures Ports.LowestFree(used, MinPort, MaxPort).Some? <==> |m| < 101
  {
    LivePortsSize(m);
    Ports.FreeWhileBelowCapacity(used, MinPort, MaxPort);
  }

  /** The IDs of a sequence of terminals. */
  function IdSet(ts: seq<Terminal>): set<int> {
    set k | 0 <= k < |ts| :: ts[k].id
  }

  /** Distinct IDs: a sequence of terminals has as many IDs as entries. */
  lemma {:induction false} IdSetSize(ts: seq<Terminal>)
    requires forall j, k :: 0 <= j < k < |ts| ==> ts[j].id != ts[k].id
    ensures |IdSet(ts)| == |ts|
    decreases |ts|
  {
    if |ts| > 0 {
      var init := ts[..|ts| - 1];
      var last := ts[|ts| - 1].id;
      IdSetSize(init);
      assert IdSet(ts) == IdSet(init) + {last} by {
        forall id | id in IdSet(ts) ensures id in IdSet(init) + {last} {
          var k :| 0 <= k < |ts| && ts[k].id == id;
          if k < |ts| - 1 { assert init[k] == ts[k]; }
        }
        forall id | id in IdSet(init) ensures id in IdSet(ts) {
          var k :| 0 <= k < |init| && init[k].id == id;
          assert ts[k] == init[k];
        }
      }
      forall k | 0 <= k < |init| ensures init[k].id != last {
        assert init[k] == ts[k];
      }
    }
  }

  /** Killing the part of a full, duplicate-free snapshot from position n on leaves n terminals. */
  lemma SurvivorCount(m: map<int, Terminal>, after: map<int, Terminal>, ts: seq<Terminal>, n: int)
    requires 0 <= n <= |ts|
    requires forall k :: 0 <= k < |ts| ==> ts[k].id in m
    requires forall j, k :: 0 <= j < k < |ts| ==> ts[j].id != ts[k].id
    requires forall id :: id in m ==> exists k :: 0 <= k < |ts| && ts[k].id == id
    requires forall id :: id in after <==> id in m && id !in IdSet(ts[n..])
    ensures |after| == n
  {
    assert after.Keys == IdSet(ts[..n]) by {
      forall id | id in after ensures id in IdSet(ts[..n]) {
        var k :| 0 <= k < |ts| && ts[k].id == id;
        forall j | n <= j < |ts| ensures ts[j].id != id {
          assert ts[n..][j - n] == ts[j];
        }
        assert ts[..n][k] == ts[k];
      }
      forall id | id in IdSet(ts[..n]) ensures id in after {
        var k :| 0 <= k < n && ts[..n][k].id == id;
        assert ts[k].id == id;
        forall j | 0 <= j < |ts| - n ensures ts[n..][j].id != id {
          assert ts[n..][j] == ts[n + j];
        }
      }
    }
    IdSetSize(ts[..n]);
  }

  /** Killing every terminal of a snapshot that lists each live one leaves none. */
  lemma AllKilled(m: map<int, Terminal>, after: map<int, Terminal>, ts: seq<Terminal>)
    requires forall id :: id in m ==> exists k :: 0 <= k < |ts| && ts[k].id == id
    requires forall id :: id in after <==> id in m && id !in IdSet(ts)
    ensures after == map[]
  {
    forall id | id in m ensures id in IdSet(ts) {
      var k :| 0 <= k < |ts| && ts[k].id == id;
    }
    forall id ensures id !in after {}
  }

  /** A non-empty set has a member. */
  lemma NonEmptyHasMember(s: set<int>)
    requires |s| > 0
    ensures exists x :: x in s
  {
    if forall x :: x !in s {
      assert false;
    }
  }

  /** The title the layout code gives to the terminal at (0-based) position i. */
  function DefaultTitle(i: nat): string {
    "Terminal " + NatToString(i + 1)
  }

  /** What a spawn is asked for: a title, a shell and a working directory. */
  datatype Spec = Spec(title: string, shell: string, workingDir: string)

  /** The specs of the layout loop for positions from..to-1: the default title,
      /bin/bash and no working directory. */
  function DefaultSpecs(from: nat, to: nat): (s: seq<Spec>)
    requires from <= to
    ensures |s| == to - from
    ensures forall k :: 0 <= k < |s| ==> s[k] == Spec(DefaultTitle(from + k), "/bin/bash", "")
  {
    seq(to - from, k requires 0 <= k < to - from => Spec(DefaultTitle(from + k), "/bin/bash", ""))
  }

  /** Every terminal of m that is not in m0 was spawned for specs[ID - base]: its ID lies in
      base..base+|specs|-1 and its title, shell and working directory are that spec's. */
  ghost predicate FollowSpecs(m0: map<int, Terminal>, m: map<int, Terminal>, base: int, specs: seq<Spec>) {
    forall id :: id in m && id !in m0 ==>
      base <= id < base + |specs| && Spec(m[id].title, m[id].shell, m[id].workingDir) == specs[id - base]
  }

  /** m still holds every terminal of m0, unchanged. */
  ghost predicate Keeps(m0: map<int, Terminal>, m: map<int, Terminal>) {
    forall id :: id in m0 ==> id in m && m[id] == m0[id]
  }

  /** The IDs of m are those of m0 and the run base..next-1 of fresh ones. */
  ghost predicate KeysFrom(m0: map<int, Terminal>, m: map<int, Terminal>, base: int, next: int) {
    forall id :: id in m <==> id in m0 || base <= id < next
  }

  lemma KeysExtend(m0: map<int, Terminal>, m: map<int, Terminal>, base: int, next: int, t: Terminal)
    requires KeysFrom(m0, m, base, next) && base <= next && t.id == next
    ensures KeysFrom(m0, m[t.id := t], base, next + 1)
  {
  }

  lemma FollowExtend(m0: map<int, Terminal>, m: map<int, Terminal>, base: int, specs: seq<Spec>, k: nat, t: Terminal)
    requires FollowSpecs(m0, m, base, specs)
    requires k < |specs| && t.id == base + k && Spec(t.title, t.shell, t.workingDir) == specs[k]
    ensures FollowSpecs(m0, m[t.id := t], base, specs)
  {
  }

  /** A spawn succeeds exactly when a port is free, randomness is available and the backend starts. */
  predicate SpawnSucceeds(used: set<int>, env: SpawnEnv) {
    Ports.LowestFree(used, MinPort, MaxPort).Some? && env.random.Ok? && env.start.Ok?
  }

  /** IDs are issued as 1, 2, 3, ...: the ones handed out so far are 1..next-1. */
  ghost predicate IssuedInOrder(issued: seq<int>, next: int) {
    next >= 1 && |issued| == next - 1 && forall k :: 0 <= k < |issued| ==> issued[k] == k + 1
  }

  /** Each terminal is stored under its own ID, an ID below next; its credential is non-empty;
      no two terminals share a port. */
  ghost predicate WellFormed(m: map<int, Terminal>, next: int) {
    (forall id :: id in m ==> m[id].id == id && 1 <= id < next) &&
    (forall id :: id in m ==> m[id].credential != "") &&
    (forall i, j :: i in m && j in m && i != j ==> m[i].port != m[j].port)
  }

  class TerminalManager {
    var terminals: map<int, Terminal>
    var nextID: int
    const pool: Ports.PortPool
    const db: Store.Database
    /** the IDs handed out so far, in order */
    ghost var issued: seq<int>
    /** every backend start attempted so far */
    ghost var launches: seq<Launch>

    /** Each terminal is stored under its own ID, an ID already issued; IDs are issued as
        1, 2, 3, ...; the pool is 8081..8181 and holds exactly the live terminals' ports;
        no two terminals share a port; every credential is non-empty. */
    ghost predicate Valid()
      reads this, pool, db
    {
      Registry() && pool.used == LivePorts(terminals)
    }

    /** Valid() apart from the link between the pool and the live ports. */
    ghost predicate Registry()
      reads this, pool, db
    {
      pool.minPort == MinPort && pool.maxPort == MaxPort && pool.Valid() && db.Valid() &&
      IssuedInOrder(issued, nextID) && WellFormed(terminals, nextID)
    }

    /** NewTerminalManager: no terminals, IDs start at 1, ports 8081..8181. */
    constructor (db: Store.Database)
      requires db.Valid()
      ensures Valid() && fresh(pool)
      ensures terminals == map[] && nextID == 1 && this.db == db && pool.used == {}
    {
      terminals := map[];
      pool := new Ports.PortPool(MinPort, MaxPort);
      this.db := db;
      nextID := 1;
      issued := [];
      launches := [];
    }

    /** Allocates a port, makes a credential and starts the backend; any failure releases the
        port and registers nothing. On success the terminal takes the next ID, is saved to the
        database (a failed save leaves its row id 0) and is registered. */
    method SpawnTerminal(title: string, shell: string, workingDir: string, env: SpawnEnv) returns (r: Result<Terminal>)
      requires Valid()
      modifies this, pool, db
      ensures Valid()
      ensures r.Ok? <==> SpawnSucceeds(old(pool.used), env)
      ensures Ports.LowestFree(old(pool.used), MinPort, MaxPort).None? ==>
        r == Err(Wrap("failed to allocate port", "no available ports"))
      ensures Ports.LowestFree(old(pool.used), MinPort, MaxPort).Some? && env.random.Err? ==>
        r == Err(Wrap("failed to generate credential", env.random.error))
      ensures Ports.LowestFree(old(pool.used), MinPort, MaxPort).Some? && env.random.Ok? && env.start.Err? ==>
        r == Err(Wrap("failed to start gotty", env.start.error))
      ensures r.Err? ==> terminals == old(terminals) && nextID == old(nextID) && pool.used == old(pool.used)
      ensures r.Err? ==> unchanged(db)
      ensures r.Ok? ==> r.value == Terminal(old(nextID), if env.saved then old(db.lastTerminalRow) + 1 else 0,
        Ports.LowestFree(old(pool.used), MinPort, MaxPort).value, title, shell, workingDir,
        Credential(env.random.value), env.start.value, env.now)
      ensures r.Ok? ==> terminals == old(terminals)[r.value.id := r.value] && nextID == old(nextID) + 1
      ensures r.Ok? ==> pool.used == old(pool.used) + {r.value.port}
      ensures r.Ok? && env.saved ==>
        db.activeTerminals == old(db.activeTerminals)[r.value.dbId := Store.ActiveTerminal(r.value.port, title, r.value.pid)]
      ensures r.Ok? && !env.saved ==> db.activeTerminals == old(db.activeTerminals)
      ensures db.layout == old(db.layout) && db.sessions == old(db.sessions)
      ensures db.sessionTerminals == old(db.sessionTerminals) && db.lastSessionRow == old(db.lastSessionRow)
      ensures r.Ok? ==> r.value.id !in old(terminals) && r.value.port !in old(pool.used)
    {
      var alloc := pool.Allocate();
      if alloc.Err? {
        return Err(Wrap("failed to allocate port", alloc.error));
      }
      r := StartOn(alloc.value, title, shell, workingDir, env);
    }

    /** A spawn after its port was taken: make the credential, start the backend and register;
        a failure hands the port back to the pool. */
    method StartOn(port: int, title: string, shell: string, workingDir: string, env: SpawnEnv) returns (r: Result<Terminal>)
      requires Registry() && port !in LivePorts(terminals) && pool.used == LivePorts(terminals) + {port}
      modifies this, pool, db
      ensures Valid()
      ensures r.Ok? <==> env.random.Ok? && env.start.Ok?
      ensures env.random.Err? ==> r == Err(Wrap("failed to generate credential", env.random.error))
      ensures env.random.Ok? && env.start.Err? ==> r == Err(Wrap("failed to start gotty", env.start.error))
      ensures r.Err? ==> terminals == old(terminals) && nextID == old(nextID) && pool.used == old(pool.used) - {port}
      ensures r.Err? ==> unchanged(db)
      ensures r.Ok? ==> r.value == Terminal(old(nextID), if env.saved then old(db.lastTerminalRow) + 1 else 0,
        port, title, shell, workingDir, Credential(env.random.value), env.start.value, env.now)
      ensures r.Ok? ==> terminals == old(terminals)[r.value.id := r.value] && nextID == old(nextID) + 1
      ensures r.Ok? ==> pool.used == old(pool.used)
      ensures r.Ok? && env.saved ==>
        db.activeTerminals == old(db.activeTerminals)[r.value.dbId := Store.ActiveTerminal(port, title, r.value.pid)]
      ensures r.Ok? && !env.saved ==> db.activeTerminals == old(db.activeTerminals)
      ensures db.layout == old(db.layout) && db.sessions == old(db.sessions)
      ensures db.sessionTerminals == old(db.sessionTerminals) && db.lastSessionRow == old(db.lastSessionRow)
    {
      var credential := GenerateCredential(env.random);
      if credential.Err? {
        pool.Release(port);
        return Err(Wrap("failed to generate credential", credential.error));
      }
      launches := launches + [Launch(GottyArgv(port, title, credential.value, shell), workingDir)];
      if env.start.Err? {
        pool.Release(port);
        return Err(Wrap("failed to start gotty", env.start.error));
      }
      r := Register(port, title, shell, workingDir, credential.value, env.start.value, env.saved, env.now);
    }

    /** The successful tail of a spawn: take the next ID, save the row, register the terminal
        on the port already taken from the pool. */
    method Register(port: int, title: string, shell: string, workingDir: string, credential: string,
                    pid: int, saved: bool, now: int) returns (r: Result<Terminal>)
      requires Registry() && port !in LivePorts(terminals) && pool.used == LivePorts(terminals) + {port}
      requires credential != ""
      modifies this, db
      ensures Valid()
      ensures r == Ok(Terminal(old(nextID), if saved then old(db.lastTerminalRow) + 1 else 0, port, title, shell,
        workingDir, credential, pid, now))
      ensures terminals == old(terminals)[r.value.id := r.value] && nextID == old(nextID) + 1
      ensures saved ==>
        db.activeTerminals == old(db.activeTerminals)[r.value.dbId := Store.ActiveTerminal(port, title, pid)]
      ensures !saved ==> db.activeTerminals == old(db.activeTerminals)
      ensures db.layout == old(db.layout) && db.sessions == old(db.sessions)
      ensures db.sessionTerminals == old(db.sessionTerminals) && db.lastSessionRow == old(db.lastSessionRow)
      ensures launches == old(launches)
    {
      var id := nextID;
      nextID := nextID + 1;
      issued := issued + [id];
      var t := Terminal(id, 0, port, title, shell, workingDir, credential, pid, now);
      var row := db.SaveActiveTerminal(port, title, pid, saved);
      if row.Ok? {
        t := t.(dbId := row.value);
      }
      LivePortsAdd(terminals, id, t);
      terminals := terminals[id := t];
      r := Ok(t);
    }

    /** Removes the terminal from the map, releases its port and, when it has a database row,
        deletes that row (a failed delete is only logged). An unknown ID changes nothing. */
    method KillTerminal(id: int, deleted: bool) returns (r: Option<string>)
      requires Valid()
      modifies this, pool, db
      ensures Valid()
      ensures id !in old(terminals) ==> r == Some("terminal not found")
      ensures id !in old(terminals) ==> terminals == old(terminals) && pool.used == old(pool.used) && unchanged(db)
      ensures id in old(terminals) ==> r == None && terminals == old(terminals) - {id}
      ensures id in old(terminals) ==> pool.used == old(pool.used) - {old(terminals)[id].port}
      ensures id in old(terminals) && old(terminals)[id].dbId > 0 && deleted ==>
        db.activeTerminals == old(db.activeTerminals) - {old(terminals)[id].dbId}
      ensures !(id in old(terminals) && old(terminals)[id].dbId > 0 && deleted) ==>
        db.activeTerminals == old(db.activeTerminals)
      ensures nextID == old(nextID) && issued == old(issued) && launches == old(launches)
      ensures db.layout == old(db.layout) && db.sessions == old(db.sessions) && db.lastTerminalRow == old(db.lastTerminalRow)
      ensures db.sessionTerminals == old(db.sessionTerminals) && db.lastSessionRow == old(db.lastSessionRow)
    {
      if id !in terminals {
        return Some("terminal not found");
      }
      var t := terminals[id];
      LivePortsRemove(terminals, id);
      terminals := terminals - {id};
      pool.Release(t.port);
      if t.dbId > 0 {
        var _ := db.DeleteActiveTerminal(t.dbId, deleted);
      }
      r := None;
    }

    /** monitorTerminal after the process of terminal id exited: a still-registered terminal
        is removed and its port released; the database is never touched. */
    method MonitorTerminal(id: int)
      requires Valid()
      modifies this, pool
      ensures Valid()
      ensures terminals == old(terminals) - {id}
      ensures pool.used == if id in old(terminals) then old(pool.used) - {old(terminals)[id].port} else old(pool.used)
      ensures nextID == old(nextID) && issued == old(issued) && launches == old(launches)
    {
      if id in terminals {
        var t := terminals[id];
        LivePortsRemove(terminals, id);
        terminals := terminals - {id};
        pool.Release(t.port);
      }
    }

    /** A snapshot of the live terminals in an unspecified order, each exactly once. */
    method GetTerminals() returns (ts: seq<Terminal>)
      ensures |ts| == |terminals|
      ensures forall k :: 0 <= k < |ts| ==> ts[k].id in terminals && terminals[ts[k].id] == ts[k]
      ensures forall j, k :: 0 <= j < k < |ts| ==> ts[j].id != ts[k].id
      ensures forall id :: id in terminals ==> exists k :: 0 <= k < |ts| && ts[k].id == id
      requires forall id :: id in terminals ==> terminals[id].id == id
    {
      ts := [];
      var remaining := terminals.Keys;
      while |remaining| > 0
        invariant remaining <= terminals.Keys
        invariant |ts| + |remaining| == |terminals.Keys|
        invariant forall k :: 0 <= k < |ts| ==> ts[k].id in terminals && ts[k].id !in remaining && terminals[ts[k].id] == ts[k]
        invariant forall j, k :: 0 <= j < k < |ts| ==> ts[j].id != ts[k].id
        invariant forall id :: id in terminals && id !in remaining ==> exists k :: 0 <= k < |ts| && ts[k].id == id
        decreases |remaining|
      {
        NonEmptyHasMember(remaining);
        var id :| id in remaining;
        ghost var prev := ts;
        ts := ts + [terminals[id]];
        remaining := remaining - {id};
        assert ts[|prev|].id == id;
        assert forall k :: 0 <= k < |prev| ==> ts[k] == prev[k];
      }
    }

    method GetTerminal(id: int) returns (t: Option<Terminal>)
      ensures t.Some? <==> id in terminals
      ensures t.Some? ==> t.value == terminals[id]
    {
      if id in terminals {
        t := Some(terminals[id]);
      } else {
        t := None;
      }
    }

    /** The ID the next successful spawn receives; one more than the spawns so far. */
    method GetNextID() returns (n: int)
      requires Valid()
      ensures n == nextID && n == |issued| + 1
    {
      n := nextID;
    }

    /** The in-place write of a new title through a registered terminal's reference; nothing
        else about the terminal or the manager changes. */
    method SetTitle(id: int, title: string)
      requires Valid() && id in terminals
      modifies this
      ensures Valid()
      ensures terminals == old(terminals)[id := old(terminals)[id].(title := title)]
      ensures nextID == old(nextID) && issued == old(issued) && launches == old(launches)
    {
      var t := terminals[id].(title := title);
      LivePortsReplace(terminals, id, t);
      terminals := terminals[id := t];
    }

    /** Kills every terminal of a snapshot taken first; the result is always nil. */
    method Shutdown(deleted: nat -> bool) returns (r: Option<string>)
      requires Valid()
      modifies this, pool, db
      ensures Valid()
      ensures r == None && terminals == map[] && pool.used == {}
      ensures nextID == old(nextID)
      ensures db.layout == old(db.layout) && db.sessions == old(db.sessions)
      ensures db.sessionTerminals == old(db.sessionTerminals) && db.lastSessionRow == old(db.lastSessionRow)
    {
      var ts := GetTerminals();
      ghost var before := terminals;
      KillEach(ts, deleted);
      AllKilled(before, terminals, ts);
      r := None;
    }

    /** Kills the terminals of a snapshot one after the other, ignoring the outcome; the
        database delete of the i-th one has outcome deleted(i). */
    method KillEach(ts: seq<Terminal>, deleted: nat -> bool)
      requires Valid()
      modifies this, pool, db
      ensures Valid()
      ensures forall id :: id in terminals <==> id in old(terminals) && id !in IdSet(ts)
      ensures forall id :: id in terminals ==> terminals[id] == old(terminals)[id]
      ensures nextID == old(nextID)
      ensures db.layout == old(db.layout) && db.sessions == old(db.sessions)
      ensures db.sessionTerminals == old(db.sessionTerminals) && db.lastSessionRow == old(db.lastSessionRow)
    {
      var i := 0;
      ghost var killed: set<int> := {};
      while i < |ts|
        invariant Valid()
        invariant 0 <= i <= |ts|
        invariant forall id :: id in terminals <==> id in old(terminals) && id !in killed
        invariant forall id :: id in terminals ==> terminals[id] == old(terminals)[id]
        invariant forall k :: 0 <= k < i ==> ts[k].id in killed
        invariant forall id :: id in killed ==> exists k :: 0 <= k < i && ts[k].id == id
        invariant nextID == old(nextID)
        invariant db.layout == old(db.layout) && db.sessions == old(db.sessions)
        invariant db.sessionTerminals == old(db.sessionTerminals) && db.lastSessionRow == old(db.lastSessionRow)
      {
        var _ := KillTerminal(ts[i].id, deleted(i));
        killed := killed + {ts[i].id};
        i := i + 1;
      }
    }

    /** One round of a spawn loop: spawn specs[k] as the k-th terminal of the run that
        started at ID base. */
    method SpawnStep(ghost m0: map<int, Terminal>, ghost base: int, specs: seq<Spec>, k: nat, env: SpawnEnv)
      returns (t: Result<Terminal>)
      requires Valid() && k < |specs| && nextID == base + k
      requires KeysFrom(m0, terminals, base, nextID) && FollowSpecs(m0, terminals, base, specs)
      modifies this, pool, db
      ensures Valid()
      ensures t.Err? ==> terminals == old(terminals) && nextID == old(nextID)
      ensures t.Ok? ==> t.value.id == old(nextID) && nextID == old(nextID) + 1 && |terminals| == |old(terminals)| + 1
      ensures t.Ok? ==> t.value.id in terminals && terminals[t.value.id] == t.value
      ensures t.Ok? ==> KeysFrom(m0, terminals, base, nextID) && FollowSpecs(m0, terminals, base, specs)
      ensures Keeps(old(terminals), terminals)
      ensures |old(terminals)| < 101 && env.random.Ok? && env.start.Ok? ==> t.Ok?
      ensures db.layout == old(db.layout) && db.sessions == old(db.sessions)
      ensures db.sessionTerminals == old(db.sessionTerminals) && db.lastSessionRow == old(db.lastSessionRow)
    {
      PortFreeIffBelowCapacity(terminals, pool.used);
      t := SpawnTerminal(specs[k].title, specs[k].shell, specs[k].workingDir, env);
      if t.Ok? {
        KeysExtend(m0, old(terminals), base, old(nextID), t.value);
        FollowExtend(m0, old(terminals), base, specs, k, t.value);
      }
    }

    /** Spawns the specs in order, spawn k seeing envs(k), and stops at the first failure,
        whose error it returns; the terminals already spawned stay. spawned lists the new
        terminals in order: they take the next IDs, one after the other. */
    method SpawnAll(specs: seq<Spec>, envs: nat -> SpawnEnv) returns (r: Option<string>, spawned: seq<Terminal>)
      requires Valid()
      modifies this, pool, db
      ensures Valid()
      ensures r.None? <==> |spawned| == |specs|
      ensures |spawned| <= |specs|
      ensures nextID == old(nextID) + |spawned| && |terminals| == |old(terminals)| + |spawned|
      ensures KeysFrom(old(terminals), terminals, old(nextID), nextID)
      ensures FollowSpecs(old(terminals), terminals, old(nextID), specs)
      ensures Keeps(old(terminals), terminals)
      ensures forall j :: 0 <= j < |spawned| ==>
        spawned[j].id == old(nextID) + j && spawned[j].id in terminals && terminals[spawned[j].id] == spawned[j]
      ensures (|old(terminals)| + |specs| <= 101 &&
               (forall k :: 0 <= k < |specs| ==> envs(k).random.Ok? && envs(k).start.Ok?)) ==> r == None
      ensures db.layout == old(db.layout) && db.sessions == old(db.sessions)
      ensures db.sessionTerminals == old(db.sessionTerminals) && db.lastSessionRow == old(db.lastSessionRow)
    {
      ghost var allOk := |old(terminals)| + |specs| <= 101 &&
        forall k :: 0 <= k < |specs| ==> envs(k).random.Ok? && envs(k).start.Ok?;
      spawned := [];
      var k := 0;
      while k < |specs|
        invariant Valid()
        invariant k == |spawned| <= |specs|
        invariant nextID == old(nextID) + k && |terminals| == |old(terminals)| + k
        invariant KeysFrom(old(terminals), terminals, old(nextID), nextID)
        invariant FollowSpecs(old(terminals), terminals, old(nextID), specs)
        invariant Keeps(old(terminals), terminals)
        invariant forall j :: 0 <= j < k ==>
          spawned[j].id == old(nextID) + j && spawned[j].id in terminals && terminals[spawned[j].id] == spawned[j]
        invariant db.layout == old(db.layout) && db.sessions == old(db.sessions)
        invariant db.sessionTerminals == old(db.sessionTerminals) && db.lastSessionRow == old(db.lastSessionRow)
      {
        assert allOk ==> |terminals| < 101 && envs(k).random.Ok? && envs(k).start.Ok?;
        var t := SpawnStep(old(terminals), old(nextID), specs, k, envs(k));
        if t.Err? {
          return Some(t.error), spawned;
        }
        spawned := spawned + [t.value];
        k := k + 1;
      }
      r := None;
    }

    /** The kill loop of ApplyLayout: the terminals from position target on in a snapshot
        are killed, which leaves target of the old terminals, unchanged. */
    method KillExcess(target: nat, deleted: nat -> bool)
      requires Valid() && target < |terminals|
      modifies this, pool, db
      ensures Valid()
      ensures |terminals| == target
      ensures forall id :: id in terminals ==> id in old(terminals) && terminals[id] == old(terminals)[id]
      ensures nextID == old(nextID)
      ensures db.layout == old(db.layout) && db.sessions == old(db.sessions)
      ensures db.sessionTerminals == old(db.sessionTerminals) && db.lastSessionRow == old(db.lastSessionRow)
    {
      var ts := GetTerminals();
      KillEach(ts[target..], deleted);
      SurvivorCount(old(terminals), terminals, ts, target);
    }

    /** Brings the number of terminals to the count of the layout (4 for grid, else 2):
        spawns the missing ones or kills the ones past that count in a snapshot, then stores
        the layout. A spawn failure returns before the layout is stored. */
    method ApplyLayout(layoutType: string, envs: nat -> SpawnEnv, deleted: nat -> bool, layoutSaved: bool)
      returns (r: Option<string>)
      requires Valid()
      modifies this, pool, db
      ensures Valid()
      ensures r.None? ==> |terminals| == CountForLayout(layoutType)
      ensures r.None? ==> db.layout == Store.ActiveLayout(layoutType, CountForLayout(layoutType))
      ensures r.Some? ==> db.layout == old(db.layout)
      ensures r.Some? ==> (r.value == Wrap("failed to update layout in db", Store.DbError) ||
                           exists e :: r.value == Wrap("failed to spawn terminal", e))
      ensures CountForLayout(layoutType) <= |old(terminals)| ==>
        r == if layoutSaved then None else Some(Wrap("failed to update layout in db", Store.DbError))
      ensures CountForLayout(layoutType) <= |old(terminals)| ==> |terminals| == CountForLayout(layoutType)
      ensures CountForLayout(layoutType) <= |old(terminals)| ==>
        forall id :: id in terminals ==> id in old(terminals) && terminals[id] == old(terminals)[id]
      ensures CountForLayout(layoutType) > |old(terminals)| ==> Keeps(old(terminals), terminals)
      ensures CountForLayout(layoutType) > |old(terminals)| ==>
        FollowSpecs(old(terminals), terminals, old(nextID), DefaultSpecs(|old(terminals)|, CountForLayout(layoutType)))
      ensures CountForLayout(layoutType) <= |old(terminals)| ==> nextID == old(nextID)
      ensures (CountForLayout(layoutType) > |old(terminals)| &&
               forall k :: 0 <= k < CountForLayout(layoutType) - |old(terminals)| ==> envs(k).random.Ok? && envs(k).start.Ok?) ==>
        r == if layoutSaved then None else Some(Wrap("failed to update layout in db", Store.DbError))
    {
      var target := CountForLayout(layoutType);
      var current := |terminals|;
      if target > current {
        var failed, _ := SpawnAll(DefaultSpecs(current, target), envs);
        if failed.Some? {
          return Some(Wrap("failed to spawn terminal", failed.value));
        }
      } else if target < current {
        KillExcess(target, deleted);
      }
      var ok := db.UpdateActiveLayout(layoutType, target, layoutSaved);
      if !ok {
        return Some(Wrap("failed to update layout in db", Store.DbError));
      }
      r := None;
    }
  }
}
