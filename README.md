# StratusShell core, modelled in Dafny

StratusShell is a self-hosted web terminal multiplexer. A Go HTTP server starts GoTTY
processes on local ports, shows them in a browser layout (horizontal, vertical or grid),
proxies `/term/{port}/…` to them with HTTP Basic authentication, and keeps the active
terminals, the layout and saved sessions in SQLite. A provisioning side prepares a Linux
user for it (package manager, base packages, cloud tools, Go and Node toolchains, shell rc
file, Claude settings and MCP servers) and installs a systemd unit per user.

This project models that core and proves properties of the model:

- `portpool.dfy` (`Ports`): the port pool over 8081..8181 — lowest free port, release, capacity.
- `terminal.dfy` (`Terminals`): the terminal manager as a class holding a port pool and the
  database: spawn, kill, monitor, shutdown, layout application, GoTTY argv and credentials.
- `handlers.dfy` (`Handlers`): the HTTP handlers for layout, add, delete, rename, save and load
  session, including the transactional rollback of session load.
- `server.dfy` (`Server`): startup restore and the terminal proxy (port segment, credential
  lookup, Authorization header, path rewrite).
- `gotty.dfy` (`Gotty`): the GoTTY option set and the shell command of the in-process wrapper.
- `auth.dfy`, `csrf.dfy`, `ratelimit.dfy`, `tokens.dfy` (`Auth`, `Csrf`, `RateLimit`, `Tokens`):
  session cookies, CSRF tokens, the token-bucket rate limiter, and random tokens.
- `validation.dfy` (`Validation`): input validation and sanitising.
- `store.dfy` (`Store`): the rows of the SQLite tables the server reads and writes.
- `packagemanager.dfy`, `tools.dfy`, `toolchains.dfy`, `shell.dfy`, `claude.dfy`
  (`PackageManagers`, `Tools`, `Toolchains`, `Shell`, `Claude`): the provisioner.
- `systemd.dfy` (`Systemd`): the systemd unit for a user.
- Helpers standing for the Go library functions the core relies on: `text.dfy` (`strings.TrimSpace`,
  `Split`, `Join`, `Contains`, `TrimPrefix`), `decimal.dfy` (`strconv.Itoa`/`Atoi`), `utf8.dfy`,
  `base64.dfy` (RFC 4648 sections 4 and 5), `filepath.dfy` (`filepath.Clean`, `Join`, `Dir`
  on Unix paths), `host.dfy` (the operating system as seen by the provisioner), `wrappers.dfy`.

Effects the model cannot see are inputs. A random source is a `Result` of bytes. A process
start or a database call is a `Result` or a success flag, and one inside a loop is an oracle
`nat -> …`. The operating system is a `Host.Machine`: it holds a file map, the executables on
PATH and a set of effects that fail, and it logs every command in order. Time is an `int` of
seconds given to each call.

The port pool allocates the lowest free port of its configured range (portpool.go:23-34), and
the terminal manager configures 8081..8181, so at most 101 terminals can live at once
(terminal.go:40-47). The port-pool test (portpool_test.go:8-21) builds its pool with the bounds 0
and 0 and expects ports assigned by the operating system. The model follows the code:
`Ports.ZeroRangeScenario` shows that such a pool hands out port 0 once and then none.

## Model

| member | source | states |
|---|---|---|
| Ports.LowestFree | internal/server/portpool.go:23-34 | the port Allocate picks is the lowest free one in range; none exists iff every port in range is used |
| Ports.FreeWhileBelowCapacity | internal/server/portpool.go:23-34 | a port is free iff fewer than hi-lo+1 ports are used |
| Ports.RangeSize | internal/server/portpool.go:15-21 | the pool has exactly maxPort-minPort+1 ports |
| Ports.PortPool.constructor | internal/server/portpool.go:15-21 | a new pool has the given bounds and no port in use |
| Ports.PortPool.Allocate | internal/server/portpool.go:23-34 | marks and returns the lowest free port; "no available ports" when none, with nothing changed |
| Ports.PortPool.Release | internal/server/portpool.go:36-40 | the port is no longer in use; nothing else changes |
| Ports.PortPool.IsAllocated | internal/server/portpool.go:42-46 | true iff the port is in use |
| Ports.AllocateMany | internal/server/portpool_test.go:12-37 | n allocations on an empty pool hand out minPort, minPort+1, … in order |
| Ports.AllocationScenario | internal/server/portpool_test.go:7-44 | on the manager's range 8081..8181, five allocations give 8081..8085; a released port is no longer allocated and is handed out again |
| Ports.ZeroRangeScenario | internal/server/portpool_test.go:8-21 | a pool built with bounds 0 and 0, as the test builds it, hands out port 0 and then reports "no available ports" |
| Terminals.CredentialShape | internal/server/terminal.go:49-59 | a credential is 29 characters: "term:", 22 URL-alphabet characters and "==" |
| Terminals.GenerateCredential | internal/server/terminal.go:50-59 | fails exactly when the random source fails |
| Terminals.CountForLayout | internal/server/terminal.go:258-269 | grid wants 4 terminals; every other layout wants 2 |
| Terminals.GottyArgv | internal/server/terminal.go:77-86 | the GoTTY argv: port, localhost, write permission, reconnection after 10 s, title, credential and the shell last |
| Terminals.GottyArgvPort | internal/server/terminal.go:78 | the port argument parses back to the port |
| Terminals.LivePortsSize | internal/server/terminal.go:61-132 | with distinct ports, as many ports are live as terminals exist |
| Terminals.PortFreeIffBelowCapacity | internal/server/terminal.go:61-65 | a spawn finds a port iff fewer than 101 terminals exist |
| Terminals.DefaultSpecs | internal/server/terminal.go:230-235 | layout filling spawns "Terminal N" with /bin/bash and no working dir |
| Terminals.TerminalManager.constructor | internal/server/terminal.go:40-47 | a manager over 8081..8181 with no terminals and next ID 1 |
| Terminals.TerminalManager.SpawnTerminal | internal/server/terminal.go:61-132 | on success the terminal gets the next ID and the lowest free port and is registered and saved; each failure (no port, credential, start) returns its wrapped error and leaves terminals, IDs and ports as they were |
| Terminals.TerminalManager.StartOn | internal/server/terminal.go:67-96 | credential then start; either failure releases the port |
| Terminals.TerminalManager.Register | internal/server/terminal.go:98-131 | ID assignment; the DB ID is set only when the row was saved |
| Terminals.TerminalManager.KillTerminal | internal/server/terminal.go:134-161 | "terminal not found" with nothing changed, or the terminal is removed, its port released and its DB row deleted when it had one |
| Terminals.TerminalManager.MonitorTerminal | internal/server/terminal.go:163-180 | after the process exits the terminal is gone and its port released |
| Terminals.TerminalManager.GetTerminals | internal/server/terminal.go:182-191 | a duplicate-free listing of exactly the live terminals |
| Terminals.TerminalManager.GetTerminal | internal/server/terminal.go:193-198 | found iff the ID is live, and then the live terminal |
| Terminals.TerminalManager.GetNextID | internal/server/terminal.go:200-204 | the next ID is one more than the number of IDs issued |
| Terminals.TerminalManager.SetTitle | internal/server/handlers.go:148-149 | only the title of that one terminal changes |
| Terminals.TerminalManager.Shutdown | internal/server/terminal.go:206-222 | after shutdown no terminal is live and no port is in use; the layout and the saved sessions and their rows are untouched |
| Terminals.TerminalManager.KillEach | internal/server/terminal.go:214-219 | exactly the listed terminals are removed; the rest are kept unchanged |
| Terminals.TerminalManager.SpawnStep | internal/server/terminal.go:230-238 | one spawn of the layout loop; while below capacity with a working source it succeeds |
| Terminals.TerminalManager.SpawnAll | internal/server/terminal.go:228-239 | spawns in order, stops at the first failure, and the new terminals follow the specs |
| Terminals.TerminalManager.KillExcess | internal/server/terminal.go:240-247 | kills terminals until exactly target remain; the survivors are unchanged |
| Terminals.TerminalManager.ApplyLayout | internal/server/terminal.go:224-256 | on success the terminal count is the layout's count and the layout row records it; a spawn or DB failure leaves the row as it was |
| Handlers.SnapshotViews | internal/server/handlers.go:31-39 | the rendered list shows every live terminal once, with ID, port and title |
| Handlers.HandleGetLayout | internal/server/handlers.go:23-42 | "Failed to get layout" when the layout cannot be read; otherwise the stored layout type and all live terminals |
| Handlers.ApplyLayoutAndRespond | internal/server/handlers.go:56-74 | an invalid layout changes nothing; a valid one is applied and then rendered |
| Handlers.HandleAddTerminal | internal/server/handlers.go:76-90 | answers "Failed to add terminal" iff the spawn fails, and then nothing changed; otherwise the one new terminal is "Terminal N" (N = live count + 1) running /bin/bash with no working dir |
| Handlers.ActionPathParses | internal/server/handlers.go:96-114 | "/api/terminal/{id}" and "/api/terminal/{id}/rename" parse back to id and the action |
| Handlers.HandleTerminalAction | internal/server/handlers.go:92-162 | 400 on an unparsable ID, 500 on a negative one; DELETE kills; POST …/rename retitles; other methods change nothing |
| Handlers.RenameOutcome | internal/server/handlers.go:126-160 | the rename answers OK iff the form parses, the sanitised title is valid and the terminal exists |
| Handlers.Rename | internal/server/handlers.go:126-160 | a refused rename changes nothing; an accepted one sets the sanitised title |
| Handlers.Retitle | internal/server/handlers.go:148-156 | the title changes in memory, and in the DB row only when the update succeeded |
| Handlers.RenamedTitleIsClean | internal/server/handlers.go:133-140 | an accepted title matches the title pattern and is its own sanitisation |
| Handlers.SavedRows | internal/server/handlers.go:198-204 | the rows saved for a session all carry that session's ID |
| Handlers.SavedRowsAll | internal/server/handlers.go:198-204 | when every save succeeds, row k records terminal k at index k |
| Handlers.SavedRowsIncreasing | internal/server/handlers.go:198-204 | whichever saves fail, the stored rows' terminal indices lie below the snapshot's size and strictly increase |
| Handlers.SaveThenRead | internal/db/sessions.go:77-96 | reading a fresh session back gives exactly the rows just saved |
| Handlers.SaveRefusal | internal/server/handlers.go:170-188 | save is refused iff the form fails, the name or the description is invalid |
| Handlers.NameCheckedFirst | internal/server/handlers.go:178-182 | an invalid name is reported before the description |
| Handlers.HandleSaveSession | internal/server/handlers.go:168-208 | a refusal or a failed create saves nothing; success creates the session and appends the snapshot's rows |
| Handlers.CreateAndSave | internal/server/handlers.go:190-204 | creation failure stores nothing; success adds the session row and its terminal rows |
| Handlers.SaveSnapshot | internal/server/handlers.go:198-204 | the rows appended are those of a snapshot of the live terminals |
| Handlers.SaveRows | internal/server/handlers.go:200-204 | the loop appends exactly the rows whose save succeeded, in order |
| Handlers.SpecsOf | internal/server/handlers.go:260-261 | each session row becomes a spawn with its title, shell and working dir |
| Handlers.SaveLoadRoundTrip | internal/server/handlers.go:198-261 | loading a saved session spawns the saved terminals in their saved order |
| Handlers.FallbackFits | internal/server/handlers.go:283-291 | the fallback layout is valid, "horizontal" up to 2 terminals and "grid" above |
| Handlers.Rollback | internal/server/handlers.go:262-270 | killing the new terminals after a failed spawn restores the old set exactly |
| Handlers.OnlyNewRemain | internal/server/handlers.go:275-280 | after the old terminals are killed exactly the new ones remain |
| Handlers.ReplaceTerminals | internal/server/handlers.go:255-280 | on a spawn failure the old terminals are kept; on success exactly the new ones remain, following the session |
| Handlers.HandleLoadSession | internal/server/handlers.go:229-296 | 400 on an unparsable ID, 500 on one below 1, "Failed to load session", "Failed to spawn …" with rollback, or the session's terminals and layout |
| Server.PortSegment | internal/server/server.go:191-192 | the port segment never contains '/' |
| Server.BasicAuthorizationShape | internal/server/server.go:234 | the header is "Basic " and the padded standard base64 of the credential |
| Server.ForwardPathStrips | internal/server/server.go:237-240 | under the corrected rewrite the forwarded path is the rest after "/term/{segment}", or "/" |
| Server.CanonicalPortPathsAgree | internal/server/server.go:237-240 | for a port written canonically the code's rewrite and the intended one agree |
| Server.NonCanonicalPortNotStripped | internal/server/server.go:237 | "/term/08081/ws" routes to port 8081 but is forwarded with its prefix still on |
| Server.CredentialOfAt | internal/server/server.go:205-212 | ports are distinct, so the credential found is that of the one terminal on the port |
| Server.RouteForwardsIff | internal/server/server.go:189-243 | forwarded iff the segment parses to a live terminal's port, with that terminal's credential and the path minus "/term/" and the re-printed port; when the segment is written as Itoa prints the port, this is the path minus the segment; otherwise 400 or 404 |
| Server.FindCredential | internal/server/server.go:205-212 | the loop's result is the credential of the terminal on the port, or "" |
| Server.TerminalProxy | internal/server/server.go:189-243 | the handler's decision is the one Route specifies, including the as-written path rewrite of line 237 |
| Server.RestoreTerminals | internal/server/server.go:157-171 | stale rows are cleared, a layout read failure returns its error, otherwise the stored layout is applied |
| Server.FirstTwoDefaults | internal/server/terminal.go:228-239 | filling the default layout yields "Terminal 1" and "Terminal 2" |
| Server.StartupRestore | internal/server/server.go:112-116 | on a fresh database with working sources the server starts with two terminals titled "Terminal 1" and "Terminal 2" |
| Gotty.ServerOptions | internal/server/gotty_wrapper.go:23-38 | localhost, writable, reconnect after 10 s, the title, and basic auth iff a credential is given |
| Gotty.ServerOptionsPort | internal/server/gotty_wrapper.go:24 | the port option parses back to the port |
| Gotty.ShellCommand | internal/server/gotty_wrapper.go:40-47 | the bare shell, or sh -c "cd dir && exec shell" when a working dir is set |
| Auth.AuthManager.constructor | internal/server/auth.go:31-38 | no sessions |
| Auth.AuthManager.CreateSession | internal/server/auth.go:48-66 | a random failure stores nothing; otherwise the token maps to a session that is live for 24 hours |
| Auth.AuthManager.ValidateSession | internal/server/auth.go:68-85 | found iff the session exists and has not expired; an expired one is deleted |
| Auth.AuthManager.DeleteSession | internal/server/auth.go:87-91 | the session map loses exactly that token, present or not; every other session is kept |
| Auth.AuthManager.CleanupExpired | internal/server/auth.go:93-107 | exactly the expired sessions are removed; liveness of every token is unchanged |
| Auth.AuthManager.AuthMiddleware | internal/server/auth.go:110-135 | passes with the session's user iff the cookie names a live session; otherwise 303 to "/login?user=…"; an expired session named by the cookie is deleted, and in every other case the session map is unchanged |
| Auth.LiveForADay | internal/server/auth.go:48-66 | a new session is live until 86400 seconds after creation and not after |
| Tokens.TokenShape | internal/server/auth.go:40-46 | a token is 44 URL-alphabet characters ending in '=' |
| Tokens.GenerateToken | internal/middleware/csrf.go:30-36 | fails exactly when the random source fails, otherwise a non-empty token |
| Base64.AlphabetDistinct | internal/server/auth.go:45 | with two final characters that differ from each other and from all letters and digits, the 64 characters are pairwise distinct |
| Base64.AlphabetRuns | internal/server/server.go:234 | the standard alphabet ends in "+/", the URL one in "-_" (RFC 4648 sections 4 and 5) |
| Base64.EncodeShape | internal/server/server.go:234 | encoding n bytes gives 4*ceil(n/3) characters, alphabet characters then '=' padding |
| Csrf.PresentedToken | internal/middleware/csrf.go:113-144 | the header wins, then the form field, then the cookie |
| Csrf.CsrfProtection.constructor | internal/middleware/csrf.go:18-27 | no tokens |
| Csrf.CsrfProtection.ValidateToken | internal/middleware/csrf.go:79-93 | valid iff issued and not yet expired |
| Csrf.CsrfProtection.GetToken | internal/middleware/csrf.go:40-76 | a still-valid cookie token is reused; otherwise a fresh token valid for 24 hours, or the random error with nothing stored |
| Csrf.CsrfProtection.CleanupTokens | internal/middleware/csrf.go:96-110 | exactly the expired tokens are removed; validity is unchanged |
| Csrf.CsrfProtection.Protect | internal/middleware/csrf.go:113-144 | safe methods pass; POST/PUT/DELETE/PATCH pass iff the presented token is valid, else 403 "CSRF token missing" or "Invalid CSRF token" |
| Csrf.ReusableIsAccepted | internal/middleware/csrf.go:42-51 | a reusable cookie token passes validation |
| Csrf.ExpiryInstant | internal/middleware/csrf.go:44-93 | at its expiry instant a token still validates but is not reused |
| Csrf.HeaderTakesPrecedence | internal/middleware/csrf.go:119-128 | with a header token, form field and cookie do not affect the decision |
| RateLimit.AllowStep | internal/middleware/ratelimit.go:73-93 | after a full window the bucket refills to rate; a request is granted iff a token is left, and takes one |
| RateLimit.AllowStepInBounds | internal/middleware/ratelimit.go:73-93 | the token count stays within 0..rate |
| RateLimit.RefusalChangesNothing | internal/middleware/ratelimit.go:73-93 | a refusal inside the window changes nothing |
| RateLimit.GrantedBetweenRefills | internal/middleware/ratelimit.go:73-93 | within one window at most min(tokens, requests) requests pass, never more than rate |
| RateLimit.Visitor.constructor | internal/middleware/ratelimit.go:45-48 | a new visitor has a full bucket refilled now |
| RateLimit.Visitor.Allow | internal/middleware/ratelimit.go:73-93 | the visitor's new state is the step's |
| RateLimit.RateLimiter.constructor | internal/middleware/ratelimit.go:26-37 | no visitors |
| RateLimit.RateLimiter.GetVisitor | internal/middleware/ratelimit.go:39-53 | the known visitor, or a fresh full one added |
| RateLimit.RateLimiter.CleanupVisitors | internal/middleware/ratelimit.go:55-71 | exactly the visitors idle for over 10 minutes are removed |
| RateLimit.RateLimiter.Limit | internal/middleware/ratelimit.go:96-112 | the address becomes a visitor if it was not one; its bucket (a new full one for a new address) takes one AllowStep, and the request passes iff that step grants, else 429; other visitors are untouched |
| Validation.ValidateTerminalTitle | internal/validation/validation.go:34-49 | valid iff the trimmed title is 1..100 characters from letters, digits, space, '_' and '-' |
| Validation.ValidateSessionName | internal/validation/validation.go:52-67 | valid iff the trimmed name is 1..100 such characters; the rule is the title's, with the name's field and messages |
| Validation.ValidateSessionDescription | internal/validation/validation.go:70-81 | valid iff the trimmed description is at most 500 bytes |
| Validation.DescriptionBounds | internal/validation/validation.go:70-81 | up to 125 characters always pass; over 500 always fail |
| Validation.ValidatePort | internal/validation/validation.go:84-93 | valid iff 1024 <= port <= 65535 |
| Validation.ValidateWorkingDir | internal/validation/validation.go:96-121 | valid iff empty, or absolute with no ".." left after cleaning; the traversal check comes first |
| Validation.WorkingDirNoTraversal | internal/validation/validation.go:96-121 | an accepted directory cleans to an absolute path of plain elements |
| Validation.WorkingDirResolvedParent | internal/validation/validation.go:102-106 | "/a/../b" is accepted, since it cleans to "/b" |
| Validation.AllowedShellsSafe | internal/validation/validation.go:124-170 | every allowed shell is an absolute path without ".." |
| Validation.ValidateShell | internal/validation/validation.go:124-170 | valid iff empty or the cleaned path is one of the allowed shells |
| Validation.ValidateTerminalID | internal/validation/validation.go:173-182 | valid iff id >= 0 |
| Validation.ValidateSessionID | internal/validation/validation.go:185-194 | valid iff id >= 1 |
| Validation.ValidateLayoutType | internal/validation/validation.go:197-210 | valid iff horizontal, vertical or grid |
| Validation.DropControl | internal/validation/validation.go:215-220 | every character other than the control characters below 32 (newline and tab excepted) is kept as often as it occurs, and none of those control characters is |
| Validation.DropControlConcat | internal/validation/validation.go:215-220 | dropping distributes over concatenation, so the kept characters keep their order |
| Validation.SanitizeString | internal/validation/validation.go:213-224 | no control characters and no edge whitespace remain |
| Validation.SanitizeIdempotent | internal/validation/validation.go:213-224 | sanitising twice is sanitising once |
| Validation.SanitizedTitleRule | internal/validation/validation.go:13-49 | a sanitised title is valid iff it matches the title pattern |
| Store.RowsOf | internal/db/sessions.go:77-96 | the rows read for a session belong to it and were stored |
| Store.RowsOfConcat | internal/db/sessions.go:77-96 | reading is distributive over appended rows |
| Store.RowsOfAll | internal/db/sessions.go:77-96 | rows that all belong to the session are read back whole |
| Store.Database.constructor | internal/db/db.go:57-64 | an empty database with the layout "horizontal", 2 |
| Store.Database.SaveActiveTerminal | internal/db/terminals.go:21-30 | a new row under a fresh positive ID, or an error with nothing stored |
| Store.Database.UpdateActiveTerminalTitle | internal/db/terminals.go:53-56 | the row's title only |
| Store.Database.DeleteActiveTerminal | internal/db/terminals.go:58-61 | the row with that ID only |
| Store.Database.ClearActiveTerminals | internal/db/terminals.go:63-66 | all rows of active terminals |
| Store.Database.GetActiveLayout | internal/db/terminals.go:68-77 | the stored layout, or an error |
| Store.Database.UpdateActiveLayout | internal/db/terminals.go:79-85 | the layout row only |
| Store.Database.CreateSession | internal/db/sessions.go:25-34 | a new session under a fresh positive ID, or an error with nothing stored |
| Store.Database.SaveSessionTerminal | internal/db/sessions.go:69-75 | appends one row for the session |
| Store.Database.GetSessionTerminals | internal/db/sessions.go:77-96 | exactly the session's rows, in insertion order (see Left out on ORDER BY) |
| PackageManagers.Name | internal/provision/packagemanager.go:17-30 | apt, yum, dnf, pacman, or "unknown" for anything else |
| PackageManagers.FirstAvailable | internal/provision/packagemanager.go:32-50 | the first manager whose executable is on PATH, in the order apt-get, dnf, yum, pacman; an error iff none is |
| PackageManagers.DnfPreferredOverYum | internal/provision/packagemanager.go:32-50 | without apt-get, dnf is chosen even when yum is present |
| PackageManagers.DetectedIsKnown | internal/provision/packagemanager.go:32-50 | a detected manager is a known one |
| PackageManagers.DetectPackageManager | internal/provision/packagemanager.go:32-50 | the probing loop returns FirstAvailable |
| PackageManagers.InstallArgv | internal/provision/packagemanager.go:52-75 | "pacman -S --noconfirm" or "<manager> install -y", then the packages; none for an unknown manager |
| PackageManagers.Install | internal/provision/packagemanager.go:52-75 | runs the one command; fails iff it fails, "unsupported package manager" for an unknown one |
| Tools.NewProvisioner | internal/provision/tools.go:18-46 | fails iff no package manager is found, else records user, config and manager |
| Tools.TranslatedLength | internal/provision/tools.go:101-123 | on yum and dnf each build-essential, which becomes gcc, gcc-c++ and make, adds two entries; on every other manager the length is unchanged, since pacman's build-essential becomes the one package base-devel |
| Tools.TranslatedUnchanged | internal/provision/tools.go:101-123 | on apt, or without build-essential, the list is unchanged |
| Tools.TranslatePackageNames | internal/provision/tools.go:101-123 | the loop computes the translation |
| Tools.InstallBasePackages | internal/provision/tools.go:49-98 | nothing for an empty list; else one install of the translated list, wrapped on failure |
| Tools.EnabledCloudToolsSize | internal/provision/tools.go:317-335 | the enabled tools are one per flag set |
| Tools.CountEnabledCloudTools | internal/provision/tools.go:317-335 | the count of flags set, at most 5, zero iff none is set |
| Tools.InstallDocker | internal/provision/tools.go:217-254 | docker.io, then docker-ce if that fails, on APT, and docker elsewhere; after a successful install the user is added to the docker group, and a failure of that step is tolerated |
| Tools.SucceededAtMost | internal/provision/tools.go:126-193 | no more tools succeed than were tried |
| Tools.TryTool | internal/provision/tools.go:126-193 | one tool is tried and counted as installed or failed |
| Tools.CloudStep | internal/provision/tools.go:126-193 | one flag of the fixed order is processed |
| Tools.InstallCloudTools | internal/provision/tools.go:126-193 | every enabled tool is tried in order and counted; the call itself never fails |
| Toolchains.GoToolPath | internal/provision/toolchains.go:146-155 | golangci-lint, gopls and delve map to their module paths; nothing else is known |
| Toolchains.InstallGoTool | internal/provision/toolchains.go:143-185 | "unknown go tool: …" with no command, or "sudo -u user go install path" |
| Toolchains.InstallGoTools | internal/provision/toolchains.go:75-79 | every tool is attempted; failures do not stop the loop |
| Toolchains.InstallGoPackage | internal/provision/toolchains.go:38-42 | installs golang, and falls back to go only when that fails |
| Toolchains.GoEnvWritesOneFile | internal/provision/toolchains.go:82-125 | the environment step writes only env.sh with the fixed content |
| Toolchains.WriteGoEnv | internal/provision/toolchains.go:82-125 | mkdir, write env.sh, chown, stopping at the first failure |
| Toolchains.InstallGoToolchain | internal/provision/toolchains.go:34-140 | "failed to install go" stops everything; then the home directory, the tools and the environment file; the log is exactly GoToolchainEffects and only the environment step writes files |
| Toolchains.InstallGoExtras | internal/provision/toolchains.go:74-125 | every configured tool is attempted, then the environment file, which decides the outcome |
| Toolchains.InstallNpmGlobals | internal/provision/toolchains.go:244-248 | "npm install -g" for each package in order |
| Toolchains.PnpmIffConfigured | internal/provision/toolchains.go:251-255 | pnpm is installed after the globals iff it is the configured package manager |
| Toolchains.InstallNodeIn | internal/provision/toolchains.go:188-275 | the nvm dir, nodejs and npm, the globals, pnpm when chosen, and chown |
| Toolchains.InstallNodeExtras | internal/provision/toolchains.go:243-260 | globals and pnpm never fail the call; only chown does |
| Toolchains.InstallNodeToolchain | internal/provision/toolchains.go:188-275 | a home lookup error or "invalid nvm directory" with no effect, or the node installation; the log is exactly NodeToolchainEffects |
| Toolchains.InstallLanguageToolchains | internal/provision/toolchains.go:15-31 | never fails; the log is the Go toolchain's effects when Go is enabled, followed by the Node toolchain's when Node is enabled, and only the Go toolchain writes files |
| Toolchains.GoBeforeNode | internal/provision/toolchains.go:15-31 | with both enabled the run starts with the golang install, and a failed Go install is followed by the whole Node toolchain |
| Shell.FindSubstring | internal/provision/shell.go:235-242 | found iff sub occurs at some index of s |
| Shell.ContainsAsWritten | internal/provision/shell.go:228-232 | the hand-written contains agrees with substring containment |
| Shell.BlockCarriesMarker | internal/provision/shell.go:149 | after the block is appended the file contains the marker |
| Shell.RcAfter | internal/provision/shell.go:152-210 | a file with the marker is kept; otherwise the block is appended, or the file is the block |
| Shell.RcAfterIdempotent | internal/provision/shell.go:152-173 | configuring twice is configuring once |
| Shell.RcAfterKeepsExisting | internal/provision/shell.go:176-210 | the existing content is a prefix of the result |
| Shell.AppendWritesOneFile | internal/provision/shell.go:176-210 | the append writes only the rc file |
| Shell.UpdateRcFile | internal/provision/shell.go:152-210 | a read failure, an already configured file left alone, or the block appended and chowned; the log and files are RcEffects and RcWritten |
| Shell.ConfigureShellRC | internal/provision/shell.go:105-225 | .zshrc iff zsh is enabled; home and rc directory validated before any effect; success leaves the file configured; the log and files are ConfigureEffects and ConfigureFiles |
| Shell.ConfiguredAfter | internal/provision/shell.go:105-225 | with accepted directories, a readable file and a successful write, the rc file carries the marker afterwards |
| Shell.InstallZsh | internal/provision/shell.go:38-82 | the login shell is changed only after zsh installed; the log is ZshEffects |
| Shell.InstallTmux | internal/provision/shell.go:85-102 | one install of tmux |
| Shell.SetupShellEnvironment | internal/provision/shell.go:14-35 | never fails; the log is zsh's effects when configured, tmux's when configured, then configureShellRC's; the files are those configureShellRC leaves, so an already configured rc file is unchanged |
| Shell.ShellInstallsIffConfigured | internal/provision/shell.go:17-27 | with a known package manager, zsh is installed iff configured, and so is tmux |
| Claude.ServersMapLastWins | internal/provision/claude.go:93-104 | a name is a key iff some server has it, with the config of the last such server |
| Claude.BuildServers | internal/provision/claude.go:93-104 | the loop builds that map |
| Claude.BuildSettings | internal/provision/claude.go:86-105 | the permissions are copied; mcpServers is omitted iff no server is configured, and is otherwise the last-wins map `ServersMap`; in all, the settings are `SettingsFor` of the configuration |
| Claude.WriteSettings | internal/provision/claude.go:70-148 | the settings are `SettingsFor` the configuration, so their server map is `ServersMap` of the configured servers; mkdir, marshal, write, chown run in order, each stopping the rest on failure with its own wrapped message; the log, the files and the error are `SettingsEffects`, `SettingsFiles` and `SettingsOutcome` of the encoded settings |
| Claude.SetupClaudeConfig | internal/provision/claude.go:37-164 | disabled does nothing; a home error or an invalid home refuses before any effect; for an accepted home the log, the files and the error are those of the stages on the encoding of `SettingsFor` the configuration; success leaves settings.json holding that encoding and changes no other file |
| Claude.InstallMcpServer | internal/provision/claude.go:228-266 | an invalid package name runs nothing; otherwise "sudo -u user npm install -g pkg" |
| Claude.McpErrorsBound | internal/provision/claude.go:184-198 | at most one error per server with a package |
| Claude.McpErrorsEmpty | internal/provision/claude.go:184-222 | no errors iff every server with a package installs |
| Claude.InstallEach | internal/provision/claude.go:180-198 | every server is attempted; installed plus failed is the number with a package |
| Claude.InstallMcpServers | internal/provision/claude.go:167-225 | succeeds iff disabled or every server installs, else one error listing all failures |
| Systemd.ServiceNameParts | internal/service/systemd.go:40-42 | the name is "stratusshell-", the user and ".service" |
| Systemd.ServiceNameInjective | internal/service/systemd.go:40-42 | distinct users have distinct unit names |
| Systemd.ServicePathPlain | internal/service/systemd.go:44-46 | the name is joined under /etc/systemd/system unchanged |
| Systemd.ServicePathOfUser | internal/service/systemd.go:40-46 | a valid user's unit is /etc/systemd/system/stratusshell-user.service |
| Systemd.BinaryPath | internal/service/systemd.go:48-55 | the running executable, or the default install path when it is unknown |
| Systemd.ServiceNamePlain | internal/service/systemd.go:65-72 | a valid user name cannot escape the unit directory |
| Systemd.ValidateServiceConfig | internal/service/systemd.go:67-91 | valid iff the user matches the pattern, 1 <= port <= 65535 and home and binary are set; errors in that order |
| Systemd.InstallSectionMentions | internal/service/systemd.go:14-30 | the install section names multi-user.target |
| Systemd.ServiceContentMentions | internal/service/systemd.go:97-103 | the unit names the user, home, binary, port, ExecStart line and network target |
| Systemd.RunInstall | internal/service/systemd.go:136-161 | write, daemon-reload, enable, start, stopping at the first failure with that step's message |
| Systemd.InstallWrites | internal/service/systemd.go:136-161 | a full install writes only the unit file, with the generated content |
| Systemd.InstallSystemdService | internal/service/systemd.go:105-162 | a lookup error, "invalid service configuration", or the unit installed and started |
| Systemd.UninstallSystemdService | internal/service/systemd.go:164-181 | stop, disable, remove, reload, ignoring failures; never fails |
| Systemd.GetServiceStatus | internal/service/systemd.go:183-190 | fails iff systemctl status fails |
| Host.Machine.Run | internal/service/systemd.go:136-161 | effects run in order up to and including the first failure; files change as those effects say |
| Host.UntilFailureStops | internal/service/systemd.go:136-161 | the run stops exactly at the first failing effect |
| Text.TrimSpaceIdempotent | internal/validation/validation.go:35 | trimming twice is trimming once |
| Text.JoinSplit | internal/server/server.go:192 | joining the split pieces gives back the string |
| Text.SplitJoin | internal/server/handlers.go:96-114 | splitting joined slash-free pieces gives them back |
| Decimal.AtoiIntToString | internal/server/server.go:198 | every 64-bit integer printed in decimal parses back to itself |
| Decimal.IntToStringInjective | internal/server/server.go:237 | distinct integers print differently |
| Decimal.AtoiLeadingZero | internal/server/server.go:198 | "08081" parses to 8081 |
| Decimal.AtoiPlusSign | internal/server/server.go:198 | "+8081" parses to 8081 |
| Utf8.ByteLenAtMostFour | internal/validation/validation.go:70-81 | a string takes at most four bytes per character |
| FilePath.CleanIsAbs | internal/validation/validation.go:102-114 | cleaning keeps a path absolute or relative |
| FilePath.CleanAbsolute | internal/validation/validation.go:102-114 | a cleaned absolute path is "/" and plain elements without ".." |
| FilePath.CleanParentExample | internal/validation/validation.go:102 | "/a/../b" cleans to "/b" |
| FilePath.CleanRootParentExample | internal/validation/validation.go:102 | "/../etc" cleans to "/etc" |

## Left out

- Concurrency: the mutexes, the monitor goroutine and the cleanup tickers. Each operation is atomic in the model.
- Aliasing of `*Terminal` references: terminals are values in a map, so a rename is a map update.
- Process I/O and the HTTP transport: the reverse proxy's forwarding, templ rendering and cookie attributes are not modelled. Handlers return a `Response` value.
- Audit logging and `log` output.
- `Terminals.TerminalManager.Shutdown`: does not state which active-terminal rows are deleted; it states that no terminal and no port remain and that the layout and the saved sessions are untouched.
- `handleTerminalProxy`'s `len(parts) == 0` branch: `strings.Split` never returns an empty slice, so this branch is dead.
- `db.GetSessionLayoutType` is not part of this model. Its result is an input of `Handlers.HandleLoadSession`.
- The provisioning helpers in `user.go` and `sudo.go` are effects of `Host.Machine` or inputs:
  - the home-directory lookup is a `Result` input;
  - `SetUserShell` is a `ChangeShell` effect;
  - `ChownRecursive` is a `Chown` effect;
  - the group change is an `AddToGroup` effect.
- Operating-system error texts are replaced by one constant, `EffectFailed`.
- `ValidateNpmPackage` (in `user.go`) is not part of this model. It is the `npmCheck` parameter.
- JSON marshalling of the Claude settings is the `marshal` parameter.
- `Claude.InstallMcpServer`: the npm output that Go adds to the error message is not modelled. The message carries an empty output.
- `Systemd.InstallSystemdService`: does not model the Go `%q` escaping of the user name in the lookup error. The name is quoted as it is.
- Template parsing and execution errors in `generateServiceContent` are impossible for the constant template, so they are left out.
- `Shell.UpdateRcFile`: opening the rc file for append and writing to it can fail separately in Go. The model merges them into one file write.
- `os.Stat` on the rc file is modelled as "the path is in the file map".
- `Shell.FindSubstring`: it works on characters where Go works on bytes. The answers agree, because UTF-8 is self-synchronising.
- Session `CreatedAt`/`ExpiresAt` and CSRF expiry use one `now` per call. Clock drift within a call is not modelled.
- Go's `int` is 64-bit. Port and ID arithmetic never approach that bound, so it is not modelled, except that `Decimal.Atoi` refuses values outside the 64-bit range as `strconv.Atoi` does.
- `Base64.AlphabetRuns` checks the alphabets at their run boundaries only. `Base64.Alphabet` defines them fully.
- `Store.Database.GetSessionTerminals`: returns a session's rows in insertion order, where sessions.go:77-96 sorts them by `terminal_index`. A session's rows are all written by one save, which stores them with strictly increasing indices whichever writes fail (`Handlers.SavedRowsIncreasing`), so the two orders agree for every session the server writes. The model does not sort rows stored in any other order.
- The cmd/ entry points, the health endpoint, preferences and the login page are not part of the core.

## Findings

| source | as written | input that shows it | evidently intended | confidence | as-written member | corrected member |
|---|---|---|---|---|---|---|
| internal/server/server.go:237 | the proxy strips the prefix "/term/" plus the parsed port printed back in decimal | "/term/08081/ws": the segment "08081" parses to 8081, but "/term/8081" is not a prefix, so GoTTY receives "/term/08081/ws" | strip the segment that was actually parsed, forwarding "/ws" | not executed | Server.NonCanonicalPortNotStripped | Server.ForwardPath |
