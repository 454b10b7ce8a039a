/** The options and the command line that the GoTTY wrapper builds for one terminal. */
module Gotty {
  import opened Wrappers
  import opened Decimal

  datatype Options = Options(
    address: string,
    port: string,
    permitWrite: bool,
    enableReconnect: bool,
    reconnectTime: int,
    titleFormat: string,
    enableBasicAuth: bool,
    credential: string)

  datatype Command = Command(name: string, args: seq<string>)

  /** The server options: local address, writable, reconnecting every 10 seconds, with the
      given title; basic authentication is on exactly when a credential is given. */
  function ServerOptions(port: int, credential: string, title: string): (o: Options)
    ensures o.address == "localhost" && o.permitWrite && o.enableReconnect && o.reconnectTime == 10
    ensures o.titleFormat == title
    ensures o.enableBasicAuth <==> credential != ""
    ensures o.credential == credential
    ensures o.port == IntToString(port)
  {
    var base := Options("localhost", IntToString(port), true, true, 10, title, false, "");
    if credential != "" then base.(credential := credential, enableBasicAuth := true) else base
  }

  /** The port option is the decimal port, which parses back to the port. */
  lemma ServerOptionsPort(port: int, credential: string, title: string)
    requires Int64Min <= port <= Int64Max
    ensures Atoi(ServerOptions(port, credential, title).port) == Some(port)
  {
    AtoiIntToString(port);
  }

  /** The shell itself without a working directory; otherwise a POSIX shell that changes to
      the directory and then replaces itself with the shell. */
  function ShellCommand(shell: string, workingDir: string): (c: Command)
    ensures workingDir == "" ==> c == Command(shell, [])
    ensures workingDir != "" ==> c.name == "sh" && |c.args| == 2 && c.args[0] == "-c"
    ensures workingDir != "" ==> c.args[1] == "cd " + workingDir + " && exec " + shell
  {
    if workingDir == "" then Command(shell, [])
    else Command("sh", ["-c", "cd " + workingDir + " && exec " + shell])
  }
}
