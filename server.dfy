/** The server's own orchestration: the startup restore and the decisions of the terminal
    proxy (port segment, credential lookup, Authorization header and path rewrite). */
module Server {
  import opened Wrappers
  import opened Text
  import opened Decimal
  import Base64
  import Utf8
  import Store
  import Ports
  import opened Terminals

  /** What the proxy handler does with a request: answer with an error, or forward it to
      localhost:port with the given Authorization header and path. */
  datatype ProxyDecision =
    | Refuse(status: int, message: string)
    | Forward(port: int, authorization: string, path: string)

  const ProxyPrefix: string := "/term/"

  /** The first '/'-separated segment after the "/term/" prefix. */
  function PortSegment(path: string): (seg: string)
    ensures '/' !in seg
  {
    Split(TrimPrefix(path, ProxyPrefix), '/')[0]
  }

  /** The Authorization header of HTTP Basic authentication (RFC 7617 section 2): "Basic "
      and the standard base64 (RFC 4648 section 4) of the credential's UTF-8 bytes. */
  function BasicAuthorization(credential: string): string {
    "Basic " + Base64.EncodeStd(Utf8.Encode(credential))
  }

  /** For an ASCII credential of n characters the header is "Basic " and 4 * ceil(n / 3)
      characters of the standard alphabet, the last Padding(n) of them '='. */
  lemma BasicAuthorizationShape(credential: string)
    requires Utf8.IsAscii(credential)
    ensures HasPrefix(BasicAuthorization(credential), "Basic ")
    ensures |BasicAuthorization(credential)| == 6 + 4 * ((|credential| + 2) / 3)
    ensures forall i :: 6 <= i < |BasicAuthorization(credential)| - Base64.Padding(|credential|) ==>
      BasicAuthorization(credential)[i] in Base64.StdAlphabet
    ensures forall i :: |BasicAuthorization(credential)| - Base64.Padding(|credential|) <= i < |BasicAuthorization(credential)| ==>
      BasicAuthorization(credential)[i] == '='
  {
    var bytes := Utf8.Encode(credential);
    Utf8.EncodeAscii(credential);
    Base64.EncodeShape(Base64.StdAlphabet, bytes);
    var h := BasicAuthorization(credential);
    var enc := Base64.EncodeStd(bytes);
    assert h[6..] == enc;
    forall i | 6 <= i < |h| ensures h[i] == enc[i - 6] {
    }
  }

  /** The forwarded path as the handler computes it: the request path minus the prefix
      "/term/" followed by the parsed port printed in decimal, or "/" if nothing is left. */
  function ForwardPathAsWritten(path: string, port: int): string {
    var rest := TrimPrefix(path, ProxyPrefix + IntToString(port));
    if rest == "" then "/" else rest
  }

  /** The forwarded path with the segment that was parsed stripped, or "/" if nothing is left. */
  function ForwardPath(path: string): string {
    var rest := TrimPrefix(path, ProxyPrefix + PortSegment(path));
    if rest == "" then "/" else rest
  }

  /** On "/term/" + seg + rest, with rest empty or starting a new segment, the port segment is
      seg and the forwarded path is rest (or "/"). */
  lemma ForwardPathStrips(seg: string, rest: string)
    requires '/' !in seg
    requires rest == "" || rest[0] == '/'
    ensures PortSegment(ProxyPrefix + seg + rest) == seg
    ensures ForwardPath(ProxyPrefix + seg + rest) == if rest == "" then "/" else rest
  {
    var path := ProxyPrefix + seg + rest;
    assert path[..|ProxyPrefix|] == ProxyPrefix;
    var tail := TrimPrefix(path, ProxyPrefix);
    assert tail == seg + rest by {
      assert path == ProxyPrefix + (seg + rest);
    }
    if rest == "" {
      assert tail == seg;
      SplitFirst(tail, '/');
    } else {
      assert tail == seg + ['/'] + rest[1..];
      IndexOfAfter(seg, '/', rest[1..]);
      SplitFirst(tail, '/');
      assert tail[..|seg|] == seg;
    }
    assert path[..|ProxyPrefix + seg|] == ProxyPrefix + seg;
    assert path == (ProxyPrefix + seg) + rest;
  }

  /** When the client wrote the port the way Itoa prints it, the handler's rewrite and the
      corrected one agree. */
  lemma CanonicalPortPathsAgree(port: int, rest: string)
    requires Int64Min <= port <= Int64Max
    requires rest == "" || rest[0] == '/'
    ensures '/' !in IntToString(port)
    ensures ForwardPathAsWritten(ProxyPrefix + IntToString(port) + rest, port) == ForwardPath(ProxyPrefix + IntToString(port) + rest)
    ensures Atoi(PortSegment(ProxyPrefix + IntToString(port) + rest)) == Some(port)
  {
    var seg := IntToString(port);
    assert forall i :: 0 <= i < |seg| ==> seg[i] != '/' by {
      if port < 0 {
        assert forall i :: 1 <= i < |seg| ==> seg[i] == NatToString(-port)[i - 1];
      }
    }
    ForwardPathStrips(seg, rest);
    AtoiIntToString(port);
  }

  /** The handler parses "08081" as port 8081 and then strips "/term/8081", which is not a
      prefix of "/term/08081/ws": the backend receives the whole path instead of "/ws". */
  lemma NonCanonicalPortNotStripped(path: string)
    requires path == "/term/08081/ws"
    ensures Atoi(PortSegment(path)) == Some(8081)
    ensures ForwardPathAsWritten(path, 8081) == path
    ensures ForwardPath(path) == "/ws"
  {
    assert path == ProxyPrefix + "08081" + "/ws";
    ForwardPathStrips("08081", "/ws");
    AtoiLeadingZero("08081");
    IntToStringPort(8081);
    var prefix := ProxyPrefix + IntToString(8081);
    assert prefix[6] == '8' && path[6] == '0';
    assert !HasPrefix(path, prefix);
  }

  /** The credential of the terminal listening on port, or "" when none is. */
  ghost function CredentialOf(m: map<int, Terminal>, port: int): string {
    if exists id :: id in m && m[id].port == port then
      var id :| id in m && m[id].port == port; m[id].credential
    else ""
  }

  /** Ports are distinct, so the terminal found on a port is the one CredentialOf picks. */
  lemma CredentialOfAt(m: map<int, Terminal>, next: int, port: int, id: int)
    requires WellFormed(m, next) && id in m && m[id].port == port
    ensures CredentialOf(m, port) == m[id].credential
  {
  }

  /** The proxy's decision for a request path, given the live terminals. */
  ghost function Route(path: string, m: map<int, Terminal>): ProxyDecision {
    var seg := PortSegment(path);
    var parsed := Atoi(seg);
    if seg == "" || parsed.None? then Refuse(400, "Invalid terminal port")
    else
      var credential := CredentialOf(m, parsed.value);
      if credential == "" then Refuse(404, "Terminal not found")
      else if parsed.value < 0 then Refuse(500, "Invalid proxy target")
      else Forward(parsed.value, BasicAuthorization(credential), ForwardPathAsWritten(path, parsed.value))
  }

  /** A request is forwarded exactly when its port segment parses to the port of a live
      terminal; it then carries that terminal's credential and the path with "/term/" and the
      re-printed port stripped, which is the stripped segment only when the client wrote the
      port as Itoa prints it. Otherwise the answer is 400 (unparsable port) or 404 (no
      terminal on it). */
  lemma RouteForwardsIff(path: string, m: map<int, Terminal>, next: int)
    requires WellFormed(m, next)
    requires forall id :: id in m ==> MinPort <= m[id].port <= MaxPort
    ensures Route(path, m).Forward? <==> Atoi(PortSegment(path)).Some? && Atoi(PortSegment(path)).value in LivePorts(m)
    ensures Route(path, m).Forward? ==>
      exists id :: id in m && m[id].port == Route(path, m).port &&
        Route(path, m).authorization == BasicAuthorization(m[id].credential) &&
        Route(path, m).path == ForwardPathAsWritten(path, Route(path, m).port)
    ensures Route(path, m).Forward? && PortSegment(path) == IntToString(Route(path, m).port) ==>
      Route(path, m).path == ForwardPath(path)
    ensures Route(path, m).Refuse? ==>
      Route(path, m) == Refuse(400, "Invalid terminal port") || Route(path, m) == Refuse(404, "Terminal not found")
  {
    var parsed := Atoi(PortSegment(path));
    if parsed.Some? {
      var p := parsed.value;
      if p in LivePorts(m) {
        var id :| id in m && m[id].port == p;
        CredentialOfAt(m, next, p, id);
      } else {
        assert forall id :: id in m ==> m[id].port != p;
      }
    }
  }

  /** The search loop of the handler: the credential of the first terminal of a snapshot
      whose port matches, or "" when there is none. */
  method FindCredential(tm: TerminalManager, port: int) returns (credential: string)
    requires tm.Valid()
    ensures credential == CredentialOf(tm.terminals, port)
  {
    var ts := tm.GetTerminals();
    var i := 0;
    while i < |ts|
      invariant 0 <= i <= |ts|
      invariant forall k :: 0 <= k < i ==> ts[k].port != port
    {
      if ts[i].port == port {
        CredentialOfAt(tm.terminals, tm.nextID, port, ts[i].id);
        return ts[i].credential;
      }
      i := i + 1;
    }
    forall id | id in tm.terminals ensures tm.terminals[id].port != port {
      var k :| 0 <= k < |ts| && ts[k].id == id;
    }
    credential := "";
  }

  /** handleTerminalProxy's decisions: port parse, credential lookup, header and path. */
  method TerminalProxy(tm: TerminalManager, path: string) returns (d: ProxyDecision)
    requires tm.Valid()
    ensures d == Route(path, tm.terminals)
  {
    var seg := PortSegment(path);
    var parsed := Atoi(seg);
    if seg == "" || parsed.None? {
      return Refuse(400, "Invalid terminal port");
    }
    var port := parsed.value;
    var credential := FindCredential(tm, port);
    if credential == "" {
      return Refuse(404, "Terminal not found");
    }
    if port < 0 {
      return Refuse(500, "Invalid proxy target");
    }
    d := Forward(port, BasicAuthorization(credential), ForwardPathAsWritten(path, port));
  }

  /** restoreTerminals: clears the stale active-terminal rows (a failure is only logged), reads
      the stored layout and applies its type. A failed read returns the error and applies
      nothing. */
  method RestoreTerminals(tm: TerminalManager, cleared: bool, layoutRead: bool,
                          envs: nat -> SpawnEnv, deleted: nat -> bool, layoutSaved: bool)
    returns (r: Option<string>)
    requires tm.Valid()
    modifies tm, tm.pool, tm.db
    ensures tm.Valid()
    ensures !layoutRead ==> r == Some(Store.DbError)
    ensures !layoutRead ==> tm.terminals == old(tm.terminals) && tm.nextID == old(tm.nextID) && tm.db.layout == old(tm.db.layout)
    ensures !layoutRead ==> tm.db.activeTerminals == if cleared then map[] else old(tm.db.activeTerminals)
    ensures layoutRead && r.None? ==>
      |tm.terminals| == CountForLayout(old(tm.db.layout).layoutType) &&
      tm.db.layout == Store.ActiveLayout(old(tm.db.layout).layoutType, CountForLayout(old(tm.db.layout).layoutType))
    ensures layoutRead && r.Some? ==> tm.db.layout == old(tm.db.layout)
    ensures (layoutRead && CountForLayout(old(tm.db.layout).layoutType) > |old(tm.terminals)|) ==>
      Keeps(old(tm.terminals), tm.terminals) &&
      FollowSpecs(old(tm.terminals), tm.terminals, old(tm.nextID),
                  DefaultSpecs(|old(tm.terminals)|, CountForLayout(old(tm.db.layout).layoutType)))
    ensures (layoutRead && CountForLayout(old(tm.db.layout).layoutType) > |old(tm.terminals)| &&
             forall k :: 0 <= k < CountForLayout(old(tm.db.layout).layoutType) - |old(tm.terminals)| ==>
               envs(k).random.Ok? && envs(k).start.Ok?) ==>
      r == if layoutSaved then None else Some(Wrap("failed to update layout in db", Store.DbError))
  {
    var _ := tm.db.ClearActiveTerminals(cleared);
    var layout := tm.db.GetActiveLayout(layoutRead);
    if layout.Err? {
      return Some(layout.error);
    }
    r := tm.ApplyLayout(layout.value.layoutType, envs, deleted, layoutSaved);
  }

  /** Two terminals spawned from the default specs 0..1 starting at ID 1 are terminals 1 and
      2, titled "Terminal 1" and "Terminal 2". */
  lemma FirstTwoDefaults(m: map<int, Terminal>)
    requires FollowSpecs(map[], m, 1, DefaultSpecs(0, 2))
    requires |m| == 2
    ensures 1 in m && 2 in m
    ensures m[1].title == "Terminal 1" && m[2].title == "Terminal 2"
  {
    if 1 !in m {
      forall id | id in m.Keys ensures id in {2} {
      }
      Ports.SubsetCardinality(m.Keys, {2});
      assert false;
    }
    if 2 !in m {
      forall id | id in m.Keys ensures id in {1} {
      }
      Ports.SubsetCardinality(m.Keys, {1});
      assert false;
    }
    assert NatToString(1) == "1" && NatToString(2) == "2";
    assert DefaultSpecs(0, 2)[0].title == "Terminal 1" && DefaultSpecs(0, 2)[1].title == "Terminal 2";
  }

  /** Startup on a fresh database: the default layout "horizontal" brings up "Terminal 1" and
      "Terminal 2" with IDs 1 and 2 when both spawns and the layout save succeed. */
  method StartupRestore(envs: nat -> SpawnEnv, deleted: nat -> bool) returns (r: Option<string>, count: nat, titles: seq<string>)
    requires forall k :: 0 <= k < 2 ==> envs(k).random.Ok? && envs(k).start.Ok?
    ensures r == None && count == 2
    ensures titles == ["Terminal 1", "Terminal 2"]
  {
    var db := new Store.Database();
    var tm := new TerminalManager(db);
    r := RestoreTerminals(tm, true, true, envs, deleted, true);
    count := |tm.terminals|;
    FirstTwoDefaults(tm.terminals);
    titles := [tm.terminals[1].title, tm.terminals[2].title];
  }
}
