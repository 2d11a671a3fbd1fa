/**
 * CmdClient: the administration command-line client. It reads option
 * groups, an `rmi://host:port/name` service URI and a command, then calls
 * the remote service and prints what it answers.
 *
 * The remote service is a parameter: either unreachable (the registry
 * lookup fails) or an object with a liveness answer and an `execCmd`.
 * Standard output is the string `stdout`; `System.exit` and the help text
 * are not modelled, the failure that causes them is.
 */
module CmdClient {
  import opened Common

  const GET: int := 0
  const SET: int := 1
  const PING: int := 2
  const CUSTOM: int := 3

  const RMI_PREFIX: string := "rmi://"

  /** The four output options -r, -n, -k and -c. */
  datatype Flags = Flags(noNewLine: bool, printNullAsNaN: bool, doNotPrintKeys: bool, useColon: bool)

  const DEFAULT_FLAGS: Flags := Flags(false, false, false, false)

  /** How the constructor ends when it does not complete. */
  datatype Failure =
    | IllegalArgument     // IllegalArgumentException, NumberFormatException included
    | IndexOutOfBounds    // StringIndexOutOfBoundsException from `substring`
    | NoSuchElement       // `firstElement()` of an empty argument list
    | RemoteFailure       // RemoteException or NotBoundException from the registry

  /** How one remote `execCmd` call ends: it returns a string or null, or it throws a RemoteException. */
  datatype Answer = Returns(value: Option<string>) | Throws

  /**
   * The service named by the URI, as the registry lookup sees it: not bound
   * or unreachable, or bound, where `alive` says whether its `isAlive` call
   * returns rather than throws (the boolean it returns is not looked at),
   * and `execCmd` is its command handler.
   */
  datatype RemoteService =
    | Unreachable
    | Service(alive: bool, execCmd: (string, Option<seq<string>>) -> Answer)

  /** `parseParameter(char)`: r, n, k and c set their option; any other character is ignored. */
  function ApplyOption(f: Flags, ch: char): (g: Flags)
    ensures ch == 'r' ==> g == f.(noNewLine := true)
    ensures ch == 'n' ==> g == f.(printNullAsNaN := true)
    ensures ch == 'k' ==> g == f.(doNotPrintKeys := true)
    ensures ch == 'c' ==> g == f.(useColon := true)
    ensures ch !in "rnkc" ==> g == f
  {
    match ch
    case 'r' => f.(noNewLine := true)
    case 'n' => f.(printNullAsNaN := true)
    case 'k' => f.(doNotPrintKeys := true)
    case 'c' => f.(useColon := true)
    case _ => f
  }

  /** The options after applying every character of `s` in turn. */
  function ApplyOptions(f: Flags, s: string): Flags
    decreases |s|
  {
    if |s| == 0 then f else ApplyOptions(ApplyOption(f, s[0]), s[1..])
  }

  /** `parseParameter(String)`: one leading '-' is dropped, every other character is applied. */
  function OptionGroup(f: Flags, parameter: string): Flags
    requires |parameter| > 0
  {
    ApplyOptions(f, if parameter[0] == '-' then parameter[1..] else parameter)
  }

  /** A flag is set after a group exactly when it was set before or its letter occurs in the group. */
  lemma {:induction false} ApplyOptionsSets(f: Flags, s: string)
    ensures ApplyOptions(f, s).noNewLine == (f.noNewLine || 'r' in s)
    ensures ApplyOptions(f, s).printNullAsNaN == (f.printNullAsNaN || 'n' in s)
    ensures ApplyOptions(f, s).doNotPrintKeys == (f.doNotPrintKeys || 'k' in s)
    ensures ApplyOptions(f, s).useColon == (f.useColon || 'c' in s)
    decreases |s|
  {
    if |s| > 0 {
      ApplyOptionsSets(ApplyOption(f, s[0]), s[1..]);
      assert s == [s[0]] + s[1..];
    }
  }

  datatype ServiceUri = ServiceUri(host: string, port: int, name: string)

  datatype Parsed<T> = Parsed(value: T) | Failed(failure: Failure)

  /**
   * The service URI: after `rmi://`, the host runs up to the first ':', the
   * port from there up to the first '/', and the non-empty rest is the name.
   */
  function ParseServiceUri(arg: string): (r: Parsed<ServiceUri>)
    ensures !StartsWith(arg, RMI_PREFIX) ==> r == Failed(IllegalArgument)
    ensures r.Parsed? ==> StartsWith(arg, RMI_PREFIX) && |r.value.name| > 0
  {
    if !StartsWith(arg, RMI_PREFIX) then Failed(IllegalArgument)
    else HostPortName(arg[|RMI_PREFIX|..])
  }

  /** `host:port/name`, the part after the scheme. */
  function HostPortName(s: string): (r: Parsed<ServiceUri>)
    ensures r.Parsed? ==> |r.value.name| > 0
  {
    var index := IndexOf(s, ':');
    if index == -1 then Failed(IllegalArgument)
    else
      var index2 := IndexOf(s, '/');
      if index2 == -1 then Failed(IllegalArgument)
      else SplitAt(s, index, index2)
  }

  /** The parts around the first ':' (at `index`) and the first '/' (at `index2`). */
  function SplitAt(s: string, index: nat, index2: nat): (r: Parsed<ServiceUri>)
    requires index < |s| && index2 < |s|
    ensures r.Parsed? ==> |r.value.name| > 0
  {
    if index2 < index + 1 then Failed(IndexOutOfBounds)
    else PortAndName(s[..index], s[index + 1..index2], s[index2 + 1..])
  }

  /** The port text must be an `int`, and the name must not be empty. */
  function PortAndName(host: string, portText: string, name: string): (r: Parsed<ServiceUri>)
    ensures r.Parsed? ==> |r.value.name| > 0
  {
    match ParseInt(portText)
    case None => Failed(IllegalArgument)
    case Some(port) =>
      if |name| == 0 then Failed(IllegalArgument)
      else Parsed(ServiceUri(host, port, name))
  }

  /** A well-formed URI parses to its parts. */
  lemma ParseServiceUriOfParts(host: string, port: nat, name: string)
    requires ':' !in host && '/' !in host && |name| > 0 && port <= INT32_MAX
    ensures ParseServiceUri(RMI_PREFIX + host + ":" + NatToString(port) + "/" + name)
         == Parsed(ServiceUri(host, port, name))
  {
    var p := NatToString(port);
    var rest := host + ":" + p + "/" + name;
    assert RMI_PREFIX + host + ":" + p + "/" + name == RMI_PREFIX + rest;
    ParseServiceUriPrefixed(rest);
    ParseIntOfRendering(port);
    assert '/' !in p;
    HostPortNameOfParts(host, p, port, name);
  }

  lemma ParseServiceUriPrefixed(rest: string)
    ensures ParseServiceUri(RMI_PREFIX + rest) == HostPortName(rest)
  {
    var arg := RMI_PREFIX + rest;
    assert arg[..|RMI_PREFIX|] == RMI_PREFIX;
    assert arg[|RMI_PREFIX|..] == rest;
  }

  lemma HostPortNameOfParts(host: string, p: string, port: int, name: string)
    requires ':' !in host && '/' !in host && |name| > 0
    requires '/' !in p && ParseInt(p) == Some(port)
    ensures HostPortName(host + ":" + p + "/" + name) == Parsed(ServiceUri(host, port, name))
  {
    var s := host + ":" + p + "/" + name;
    var hp := host + ":" + p;
    var index, index2 := |host|, |host| + 1 + |p|;
    assert s[..index] == host && s[index] == ':';
    IndexOfAt(s, index, ':');
    NoSlashBeforeName(host, p);
    assert s[..index2] == hp && s[index2] == '/';
    IndexOfAt(s, index2, '/');
    assert s[index + 1..index2] == p;
    assert s[index2 + 1..] == name;
    HostPortNameAt(s, index, index2);
  }

  lemma IndexOfAt(s: string, k: nat, c: char)
    requires k < |s| && s[k] == c && c !in s[..k]
    ensures IndexOf(s, c) == k
  {
  }

  lemma NoSlashBeforeName(host: string, p: string)
    requires '/' !in host && '/' !in p
    ensures '/' !in host + ":" + p
  {
    var hp := host + ":" + p;
    assert forall i :: |host| < i < |hp| ==> hp[i] == p[i - |host| - 1];
  }

  lemma HostPortNameAt(s: string, index: nat, index2: nat)
    requires IndexOf(s, ':') == index && IndexOf(s, '/') == index2
    ensures HostPortName(s) == SplitAt(s, index, index2)
  {
  }

  /** The text a GET result prints as: null is "nan" with -n and "null" otherwise. */
  function ResultText(result: Option<string>, f: Flags): string {
    match result
    case Some(text) => text
    case None => if f.printNullAsNaN then "nan" else "null"
  }

  /** One GET item: `param:result`, or the result alone with -k. */
  function ItemText(param: string, result: Option<string>, f: Flags): string {
    (if f.doNotPrintKeys then "" else param + ":") + ResultText(result, f)
  }

  function Separator(f: Flags): string {
    if f.useColon then ":" else " "
  }

  /** Every item in `items` gets an answer; none of its calls throws. */
  ghost predicate AllAnswered(items: seq<string>, get: string -> Answer) {
    forall i :: 0 <= i < |items| ==> get(items[i]).Returns?
  }

  /** The index of the first item whose call throws, or the number of items when none does. */
  function FirstThrow(items: seq<string>, get: string -> Answer): (k: nat)
    ensures k <= |items| && AllAnswered(items[..k], get)
    ensures k < |items| ==> get(items[k]).Throws?
  {
    if |items| == 0 then 0
    else if get(items[0]).Throws? then 0
    else
      var k := FirstThrow(items[1..], get);
      assert forall i :: 0 <= i < k ==> items[1..][..k][i] == items[i + 1];
      1 + k
  }

  /** The string or null a call returned. */
  function ResultOf(answer: Answer): Option<string> {
    match answer
    case Returns(result) => result
    case Throws => None
  }

  /**
   * What the GET loop prints for `items` when each of their calls returns,
   * the first item printed with `firstPrint` still set.
   */
  function GetOutput(items: seq<string>, f: Flags, get: string -> Answer): string {
    if |items| == 0 then ""
    else
      var n := |items| - 1;
      GetOutput(items[..n], f, get) + Printed(ItemText(items[n], ResultOf(get(items[n])), f), n == 0, f)
  }

  /**
   * The GET loop as a whole: the items before the first throwing call are
   * printed, and a throw ends the run with RemoteFailure.
   */
  function GetRun(items: seq<string>, f: Flags, get: string -> Answer): Run {
    var k := FirstThrow(items, get);
    Run(if k < |items| then Some(RemoteFailure) else None, GetOutput(items[..k], f, get))
  }

  /** When every call returns, the GET loop completes and prints every item. */
  lemma GetRunAnswered(items: seq<string>, f: Flags, get: string -> Answer)
    requires AllAnswered(items, get)
    ensures GetRun(items, f, get) == Run(None, GetOutput(items, f, get))
  {
    assert items[..|items|] == items;
  }

  /** A throw on item `k` ends the run with RemoteFailure: the items before it stay printed and the later ones are never fetched. */
  lemma GetRunStops(items: seq<string>, k: nat, f: Flags, get: string -> Answer)
    requires k < |items| && AllAnswered(items[..k], get) && get(items[k]).Throws?
    ensures GetRun(items, f, get) == Run(Some(RemoteFailure), GetOutput(items[..k], f, get))
  {
    var j := FirstThrow(items, get);
    assert forall i :: 0 <= i < k ==> items[..k][i] == items[i];
    assert forall i :: 0 <= i < j ==> items[..j][i] == items[i];
    assert j == k;
  }

  /** `GetRunStops` for the loop over the arguments after the command word. */
  lemma GetRunStopsAt(args: seq<string>, i: nat, f: Flags, get: string -> Answer)
    requires 1 <= i < |args| && AllAnswered(args[1..i], get) && get(args[i]).Throws?
    ensures GetRun(args[1..], f, get) == Run(Some(RemoteFailure), GetOutput(args[1..i], f, get))
  {
    assert args[1..][..i - 1] == args[1..i];
    GetRunStops(args[1..], i - 1, f, get);
  }

  /** `GetRunAnswered` for the loop over the arguments after the command word. */
  lemma GetRunCompletes(args: seq<string>, f: Flags, get: string -> Answer)
    requires |args| > 0 && AllAnswered(args[1..|args|], get)
    ensures GetRun(args[1..], f, get) == Run(None, GetOutput(args[1..|args|], f, get))
  {
    assert args[1..|args|] == args[1..];
    GetRunAnswered(args[1..], f, get);
  }

  /** How one item is printed: with -r, a separator first unless it is the first item; otherwise as a line. */
  function Printed(text: string, first: bool, f: Flags): string {
    if f.noNewLine then (if first then "" else Separator(f)) + text else text + "\n"
  }

  lemma GetOutputStep(args: seq<string>, i: nat, f: Flags, get: string -> Answer)
    requires 1 <= i < |args| && AllAnswered(args[1..i], get) && get(args[i]).Returns?
    ensures AllAnswered(args[1..i + 1], get)
    ensures GetOutput(args[1..i + 1], f, get)
         == GetOutput(args[1..i], f, get) + Printed(ItemText(args[i], ResultOf(get(args[i])), f), i == 1, f)
  {
    assert args[1..i + 1] == args[1..i] + [args[i]];
    assert forall j :: 0 <= j < i - 1 ==> args[1..i + 1][j] == args[1..i][j];
    GetOutputSnoc(args[1..i], args[i], f, get);
  }

  lemma GetOutputSnoc(items: seq<string>, item: string, f: Flags, get: string -> Answer)
    ensures GetOutput(items + [item], f, get) == GetOutput(items, f, get) + Printed(ItemText(item, ResultOf(get(item)), f), |items| == 0, f)
  {
    var s := items + [item];
    assert s[..|items|] == items && s[|items|] == item;
  }

  /** The printed items, in order. */
  function Items(items: seq<string>, f: Flags, get: string -> Answer): seq<string> {
    if |items| == 0 then []
    else [ItemText(items[0], ResultOf(get(items[0])), f)] + Items(items[1..], f, get)
  }

  function Join(parts: seq<string>, sep: string): string {
    if |parts| == 0 then "" else if |parts| == 1 then parts[0] else parts[0] + sep + Join(parts[1..], sep)
  }

  function Lines(parts: seq<string>): string {
    if |parts| == 0 then "" else parts[0] + "\n" + Lines(parts[1..])
  }

  lemma {:induction false} ItemsSnoc(items: seq<string>, f: Flags, get: string -> Answer)
    requires |items| > 0
    ensures Items(items, f, get)
         == Items(items[..|items| - 1], f, get) + [ItemText(items[|items| - 1], ResultOf(get(items[|items| - 1])), f)]
  {
    if |items| > 1 {
      ItemsSnoc(items[1..], f, get);
      assert items[1..][..|items| - 2] == items[..|items| - 1][1..];
    }
  }

  lemma {:induction false} JoinSnoc(parts: seq<string>, x: string, sep: string)
    ensures Join(parts + [x], sep) == if |parts| == 0 then x else Join(parts, sep) + sep + x
  {
    if |parts| > 1 {
      assert (parts + [x])[1..] == parts[1..] + [x];
      JoinSnoc(parts[1..], x, sep);
    } else if |parts| == 1 {
      assert (parts + [x])[1..] == [x];
    }
  }

  lemma {:induction false} LinesSnoc(parts: seq<string>, x: string)
    ensures Lines(parts + [x]) == Lines(parts) + x + "\n"
  {
    if |parts| > 0 {
      assert (parts + [x])[1..] == parts[1..] + [x];
      LinesSnoc(parts[1..], x);
    }
  }

  lemma GetOutputLast(items: seq<string>, f: Flags, get: string -> Answer)
    requires |items| > 0
    ensures GetOutput(items, f, get)
         == GetOutput(items[..|items| - 1], f, get) + Printed(ItemText(items[|items| - 1], ResultOf(get(items[|items| - 1])), f), |items| == 1, f)
  {
  }

  /** GET output with -r: the items joined by the separator, none before the first and no newline. */
  lemma {:induction false} GetOutputJoined(items: seq<string>, f: Flags, get: string -> Answer)
    requires f.noNewLine
    ensures GetOutput(items, f, get) == Join(Items(items, f, get), Separator(f))
  {
    if |items| > 0 {
      var n := |items| - 1;
      var text := ItemText(items[n], ResultOf(get(items[n])), f);
      var sep := Separator(f);
      ItemsSnoc(items, f, get);
      var init := Items(items[..n], f, get);
      GetOutputJoined(items[..n], f, get);
      ItemsLength(items[..n], f, get);
      JoinSnoc(init, text, sep);
      GetOutputLast(items, f, get);
      if n == 0 {
        assert init == [] && Printed(text, true, f) == text;
      } else {
        assert Printed(text, false, f) == sep + text;
        ConcatAssoc(Join(init, sep), sep, text);
      }
    }
  }

  /** GET output without -r: one line per item. */
  lemma {:induction false} GetOutputLines(items: seq<string>, f: Flags, get: string -> Answer)
    requires !f.noNewLine
    ensures GetOutput(items, f, get) == Lines(Items(items, f, get))
  {
    if |items| > 0 {
      var n := |items| - 1;
      var text := ItemText(items[n], ResultOf(get(items[n])), f);
      ItemsSnoc(items, f, get);
      var init := Items(items[..n], f, get);
      assert GetOutput(items, f, get) == GetOutput(items[..n], f, get) + (text + "\n");
      GetOutputLines(items[..n], f, get);
      LinesSnoc(init, text);
      assert Lines(init + [text]) == Lines(init) + (text + "\n");
    }
  }

  lemma {:induction false} ItemsLength(items: seq<string>, f: Flags, get: string -> Answer)
    ensures |Items(items, f, get)| == |items|
  {
    if |items| > 0 {
      ItemsLength(items[1..], f, get);
    }
  }

  /** The leading option groups, and the arguments after them. */
  function SplitOptions(args: seq<string>, f: Flags): (r: Parsed<(Flags, seq<string>)>)
    ensures r.Parsed? ==> |r.value.1| > 0 && !StartsWith(r.value.1[0], "-")
    ensures r.Failed? ==> r.failure == NoSuchElement
  {
    if |args| == 0 then Failed(NoSuchElement)
    else if StartsWith(args[0], "-") then SplitOptions(args[1..], OptionGroup(f, args[0]))
    else Parsed((f, args))
  }

  /** The command word: "get" and "ping" in any letter case; anything else is a custom command. */
  function CommandOf(word: string): (c: int)
    ensures c in {GET, PING, CUSTOM}
    ensures c == GET <==> EqualsIgnoreCase(word, "get")
  {
    if EqualsIgnoreCase(word, "get") then GET
    else if EqualsIgnoreCase(word, "ping") then PING
    else CUSTOM
  }

  /** The outcome of a whole run: its failure, if any, and the text printed. */
  datatype Run = Run(failure: Option<Failure>, output: string)

  /** What the constructor does with its arguments, as one function. */
  function Launch(cmdArgs: seq<string>, service: RemoteService): Run {
    if |cmdArgs| < 2 then Run(Some(IllegalArgument), "")
    else match SplitOptions(cmdArgs, DEFAULT_FLAGS)
      case Failed(e) => Run(Some(e), "")
      case Parsed((f, args)) =>
        match ParseServiceUri(args[0])
        case Failed(e) => Run(Some(e), "")
        case Parsed(uri) => Execute(f, uri, args[1..], service)
  }

  /** The command part: `rest` starts with the command word. */
  function Execute(f: Flags, uri: ServiceUri, rest: seq<string>, service: RemoteService): Run {
    if |rest| == 0 then Run(Some(NoSuchElement), "")
    else
      var cmd := CommandOf(rest[0]);
      if cmd == GET then
        if |rest| < 2 then Run(Some(IllegalArgument), "")
        else match service
          case Unreachable => Run(Some(RemoteFailure), "")
          case Service(_, exec) => GetRun(rest[1..], f, GetCall(exec))
      else if cmd == PING then
        Run(None, uri.name + (if service.Service? && service.alive then " is alive.\n" else " is dead.\n"))
      else match service
        case Unreachable => Run(Some(RemoteFailure), "")
        case Service(_, exec) =>
          CustomOutcome(exec(rest[0], CustomParameters(rest)))
  }

  /** A custom command's answer is printed as one line ("null" for null); a throw prints nothing. */
  function CustomOutcome(answer: Answer): Run {
    match answer
    case Throws => Run(Some(RemoteFailure), "")
    case Returns(result) => Run(None, (match result case Some(t) => t case None => "null") + "\n")
  }

  /** A GET item is fetched as `execCmd("get", [item])`. */
  function GetCall(exec: (string, Option<seq<string>>) -> Answer): string -> Answer {
    p => exec("get", Some([p]))
  }

  /** A custom command passes the words after it, or null when there are none. */
  function CustomParameters(rest: seq<string>): (r: Option<seq<string>>)
    requires |rest| > 0
    ensures r.None? <==> |rest| == 1
    ensures r.Some? ==> r.value == rest[1..]
  {
    if |rest| > 1 then Some(rest[1..]) else None
  }

  /** Arguments that are all option groups leave no service URI: `firstElement()` fails. */
  lemma {:induction false} OnlyOptionsFail(args: seq<string>, f: Flags)
    requires forall i :: 0 <= i < |args| ==> StartsWith(args[i], "-")
    ensures SplitOptions(args, f) == Failed(NoSuchElement)
  {
    if |args| > 0 {
      OnlyOptionsFail(args[1..], OptionGroup(f, args[0]));
    }
  }

  function UriText(host: string, port: nat, name: string): string {
    RMI_PREFIX + host + ":" + NatToString(port) + "/" + name
  }

  /** A well-formed service URI followed by a command: the command runs on that URI with the default options. */
  lemma LaunchAt(host: string, port: nat, name: string, rest: seq<string>, service: RemoteService)
    requires ':' !in host && '/' !in host && |name| > 0 && port <= INT32_MAX && |rest| > 0
    ensures Launch([UriText(host, port, name)] + rest, service) == Execute(DEFAULT_FLAGS, ServiceUri(host, port, name), rest, service)
  {
    var u := UriText(host, port, name);
    var args := [u] + rest;
    assert u[0] == 'r';
    assert args[0] == u && args[1..] == rest;
    assert SplitOptions(args, DEFAULT_FLAGS) == Parsed((DEFAULT_FLAGS, args));
    ParseServiceUriOfParts(host, port, name);
  }

  /** `rmi://host:port/name ping` prints whether the service answered. */
  lemma PingReport(host: string, port: nat, name: string, service: RemoteService)
    requires ':' !in host && '/' !in host && |name| > 0 && port <= INT32_MAX
    ensures Launch([UriText(host, port, name), "ping"], service)
         == Run(None, name + (if service.Service? && service.alive then " is alive.\n" else " is dead.\n"))
  {
    assert [UriText(host, port, name), "ping"] == [UriText(host, port, name)] + ["ping"];
    LaunchAt(host, port, name, ["ping"], service);
    CommandWords();
  }

  lemma CommandWords()
    ensures CommandOf("ping") == PING && CommandOf("get") == GET && CommandOf("GET") == GET
  {
    assert |ToLower("ping")| != |ToLower("get")|;
    assert ToLower("GET") == "get";
    assert ToLower("get") == "get";
  }

  /** A GET with no item after the command word is rejected. */
  lemma GetNeedsItems(host: string, port: nat, name: string, service: RemoteService)
    requires ':' !in host && '/' !in host && |name| > 0 && port <= INT32_MAX
    ensures Launch([UriText(host, port, name), "GET"], service) == Run(Some(IllegalArgument), "")
  {
    assert [UriText(host, port, name), "GET"] == [UriText(host, port, name)] + ["GET"];
    LaunchAt(host, port, name, ["GET"], service);
    CommandWords();
  }

  /**
   * A GET on a bound service whose calls all return prints exactly the GET
   * output of its items, each fetched as `execCmd("get", [item])`; a call
   * that throws on item `k` ends the run with RemoteFailure after the items
   * before it were printed.
   */
  lemma GetReport(host: string, port: nat, name: string, items: seq<string>, alive: bool,
                  exec: (string, Option<seq<string>>) -> Answer, k: nat)
    requires ':' !in host && '/' !in host && |name| > 0 && port <= INT32_MAX && |items| > 0
    requires k <= |items| && AllAnswered(items[..k], GetCall(exec))
    requires k < |items| ==> GetCall(exec)(items[k]).Throws?
    ensures k == |items| ==> (Launch([UriText(host, port, name), "get"] + items, Service(alive, exec))
                              == Run(None, GetOutput(items, DEFAULT_FLAGS, GetCall(exec))))
    ensures k < |items| ==> (Launch([UriText(host, port, name), "get"] + items, Service(alive, exec))
                             == Run(Some(RemoteFailure), GetOutput(items[..k], DEFAULT_FLAGS, GetCall(exec))))
  {
    GetLaunch(host, port, name, items, alive, exec);
    if k < |items| {
      GetRunStops(items, k, DEFAULT_FLAGS, GetCall(exec));
    } else {
      assert items[..k] == items;
      GetRunAnswered(items, DEFAULT_FLAGS, GetCall(exec));
    }
  }

  lemma GetLaunch(host: string, port: nat, name: string, items: seq<string>, alive: bool,
                  exec: (string, Option<seq<string>>) -> Answer)
    requires ':' !in host && '/' !in host && |name| > 0 && port <= INT32_MAX && |items| > 0
    ensures Launch([UriText(host, port, name), "get"] + items, Service(alive, exec)) == GetRun(items, DEFAULT_FLAGS, GetCall(exec))
  {
    var rest := ["get"] + items;
    assert [UriText(host, port, name), "get"] + items == [UriText(host, port, name)] + rest;
    LaunchAt(host, port, name, rest, Service(alive, exec));
    ExecuteGet(ServiceUri(host, port, name), items, alive, exec);
  }

  lemma ExecuteGet(uri: ServiceUri, items: seq<string>, alive: bool, exec: (string, Option<seq<string>>) -> Answer)
    requires |items| > 0
    ensures Execute(DEFAULT_FLAGS, uri, ["get"] + items, Service(alive, exec)) == GetRun(items, DEFAULT_FLAGS, GetCall(exec))
  {
    var rest := ["get"] + items;
    CommandWords();
    assert rest[0] == "get" && rest[1..] == items;
  }

  /**
   * A custom command word sends the words after it (null when there are
   * none) to `execCmd`: a throw ends the run with RemoteFailure and nothing
   * printed, otherwise the answer is printed as one line.
   */
  lemma CustomReport(host: string, port: nat, name: string, word: string, params: seq<string>, alive: bool,
                     exec: (string, Option<seq<string>>) -> Answer)
    requires ':' !in host && '/' !in host && |name| > 0 && port <= INT32_MAX
    requires !EqualsIgnoreCase(word, "get") && !EqualsIgnoreCase(word, "ping")
    ensures var answer := exec(word, if |params| > 0 then Some(params) else None);
            (Launch([UriText(host, port, name), word] + params, Service(alive, exec))
             == if answer.Throws? then Run(Some(RemoteFailure), "")
                else Run(None, (if answer.value.Some? then answer.value.value else "null") + "\n"))
  {
    var rest := [word] + params;
    assert [UriText(host, port, name), word] + params == [UriText(host, port, name)] + rest;
    LaunchAt(host, port, name, rest, Service(alive, exec));
    assert rest[0] == word && rest[1..] == params;
  }

  class CmdClient {
    var cmd: int
    var rmiHost: string
    var rmiObjectName: string
    var rmiPort: int
    var optionNoNewLine: bool
    var optionPrintNullAsNaN: bool
    var optionDoNotPrintKeys: bool
    var optionUseColon: bool
    var firstPrint: bool
    /** Standard output. */
    var stdout: string
    /** Why the constructor threw, if it did. */
    var failure: Option<Failure>

    function Options(): Flags
      reads this`optionNoNewLine, this`optionPrintNullAsNaN, this`optionDoNotPrintKeys, this`optionUseColon
    {
      Flags(optionNoNewLine, optionPrintNullAsNaN, optionDoNotPrintKeys, optionUseColon)
    }

    constructor (cmdArgs: seq<string>, service: RemoteService)
      ensures Run(failure, stdout) == Launch(cmdArgs, service)
    {
      optionNoNewLine, optionPrintNullAsNaN, optionDoNotPrintKeys, optionUseColon := false, false, false, false;
      firstPrint := true;
      stdout := "";
      failure := None;
      cmd, rmiHost, rmiObjectName, rmiPort := GET, "", "", 0;
      new;
      failure := Start(cmdArgs, service);
    }

    /** `parseParameter(char)`. */
    method ParseParameterChar(ch: char)
      modifies this`optionNoNewLine, this`optionPrintNullAsNaN, this`optionDoNotPrintKeys, this`optionUseColon
      ensures Options() == ApplyOption(old(Options()), ch)
    {
      match ch {
        case 'r' => optionNoNewLine := true;
        case 'n' => optionPrintNullAsNaN := true;
        case 'k' => optionDoNotPrintKeys := true;
        case 'c' => optionUseColon := true;
        case _ =>
      }
    }

    /** `parseParameter(String)`: drop one leading '-', apply the remaining characters in order. */
    method ParseParameter(parameter: string)
      requires |parameter| > 0
      modifies this`optionNoNewLine, this`optionPrintNullAsNaN, this`optionDoNotPrintKeys, this`optionUseColon
      ensures Options() == OptionGroup(old(Options()), parameter)
    {
      var buf := parameter;
      if buf[0] == '-' {
        buf := buf[1..];
      }
      for i := 0 to |buf|
        invariant ApplyOptions(Options(), buf[i..]) == OptionGroup(old(Options()), parameter)
      {
        assert buf[i..][1..] == buf[i + 1..];
        ParseParameterChar(buf[i]);
      }
    }

    /** The body of the constructor, with `throw` as an early return of the failure. */
    method Start(cmdArgs: seq<string>, service: RemoteService) returns (thrown: Option<Failure>)
      requires Options() == DEFAULT_FLAGS && firstPrint && stdout == ""
      modifies this
      ensures Run(thrown, stdout) == Launch(cmdArgs, service)
    {
      if |cmdArgs| < 2 {
        return Some(IllegalArgument);
      }
      var args;
      args, thrown := ReadOptions(cmdArgs);
      if thrown.Some? {
        return;
      }
      var f := Options();
      assert SplitOptions(cmdArgs, DEFAULT_FLAGS) == Parsed((f, args));
      var uri := ReadServiceUri(args[0]);
      assert Options() == f;
      if uri.Failed? {
        return Some(uri.failure);
      }
      thrown := RunCommand(uri.value, args[1..], service);
      assert Launch(cmdArgs, service) == Execute(f, uri.value, args[1..], service);
    }

    /** The loop over the leading option groups. */
    method ReadOptions(cmdArgs: seq<string>) returns (args: seq<string>, thrown: Option<Failure>)
      requires Options() == DEFAULT_FLAGS
      modifies this`optionNoNewLine, this`optionPrintNullAsNaN, this`optionDoNotPrintKeys, this`optionUseColon
      ensures thrown.Some? <==> SplitOptions(cmdArgs, DEFAULT_FLAGS).Failed?
      ensures thrown.Some? ==> thrown.value == NoSuchElement
      ensures thrown.None? ==> SplitOptions(cmdArgs, DEFAULT_FLAGS) == Parsed((Options(), args))
    {
      args := cmdArgs;
      while true
        invariant SplitOptions(args, Options()) == SplitOptions(cmdArgs, DEFAULT_FLAGS)
        decreases |args|
      {
        if |args| == 0 {
          return args, Some(NoSuchElement);
        }
        if !StartsWith(args[0], "-") {
          return args, None;
        }
        ParseParameter(args[0]);
        args := args[1..];
      }
    }

    /** The service URI steps: each `indexOf`, `substring` and `parseInt` in turn. */
    method ReadServiceUri(arg: string) returns (r: Parsed<ServiceUri>)
      modifies this`rmiHost, this`rmiPort, this`rmiObjectName
      ensures r == ParseServiceUri(arg)
      ensures r.Parsed? ==> rmiHost == r.value.host && rmiPort == r.value.port && rmiObjectName == r.value.name
    {
      if !StartsWith(arg, RMI_PREFIX) {
        return Failed(IllegalArgument);
      }
      var s := arg[|RMI_PREFIX|..];
      var index := IndexOf(s, ':');
      if index == -1 {
        return Failed(IllegalArgument);
      }
      rmiHost := s[..index];
      var index2 := IndexOf(s, '/');
      if index2 == -1 {
        return Failed(IllegalArgument);
      }
      if index2 < index + 1 {
        return Failed(IndexOutOfBounds);
      }
      var port := ParseInt(s[index + 1..index2]);
      if port.None? {
        return Failed(IllegalArgument);
      }
      rmiPort := port.value;
      rmiObjectName := s[index2 + 1..];
      if |rmiObjectName| == 0 {
        return Failed(IllegalArgument);
      }
      return Parsed(ServiceUri(rmiHost, rmiPort, rmiObjectName));
    }

    /** The command dispatch after the URI. */
    method RunCommand(uri: ServiceUri, rest: seq<string>, service: RemoteService) returns (thrown: Option<Failure>)
      requires firstPrint && stdout == "" && rmiObjectName == uri.name
      modifies this`cmd, this`stdout, this`firstPrint
      ensures Run(thrown, stdout) == Execute(Options(), uri, rest, service)
    {
      if |rest| == 0 {
        return Some(NoSuchElement);
      }
      cmd := CommandOf(rest[0]);
      if cmd == GET {
        if |rest| < 2 {
          return Some(IllegalArgument);
        }
        if service.Unreachable? {
          return Some(RemoteFailure);
        }
        thrown := PrintGet(rest, service.execCmd);
        return;
      } else if cmd == PING {
        if service.Service? && service.alive {
          stdout := stdout + (rmiObjectName + " is alive.\n");
        } else {
          stdout := stdout + (rmiObjectName + " is dead.\n");
        }
      } else {
        if service.Unreachable? {
          return Some(RemoteFailure);
        }
        var parameters: Option<seq<string>> := None;
        if |rest| > 1 {
          parameters := Some(rest[1..]);
        }
        var answer := service.execCmd(rest[0], parameters);
        thrown := PrintAnswer(answer);
        return;
      }
      return None;
    }

    /** The custom command's answer: a throw escapes, and otherwise `System.out.println(result)`. */
    method PrintAnswer(answer: Answer) returns (thrown: Option<Failure>)
      modifies this`stdout
      ensures thrown == CustomOutcome(answer).failure && stdout == old(stdout) + CustomOutcome(answer).output
    {
      if answer.Throws? {
        return Some(RemoteFailure);
      }
      stdout := stdout + (match answer.value case Some(t) => t case None => "null") + "\n";
      return None;
    }

    /** The GET loop: one `execCmd("get", [item])` and one print per item after the command word, until a call throws. */
    method PrintGet(args: seq<string>, exec: (string, Option<seq<string>>) -> Answer) returns (thrown: Option<Failure>)
      requires firstPrint && |args| > 0
      modifies this`stdout, this`firstPrint
      ensures thrown == GetRun(args[1..], Options(), GetCall(exec)).failure
      ensures stdout == old(stdout) + GetRun(args[1..], Options(), GetCall(exec)).output
    {
      var f := Options();
      ghost var start := stdout;
      for i := 1 to |args|
        invariant firstPrint == (i == 1) && Options() == f
        invariant AllAnswered(args[1..i], GetCall(exec))
        invariant stdout == start + GetOutput(args[1..i], f, GetCall(exec))
      {
        thrown := PrintGetItem(args, i, exec, f, start);
        if thrown.Some? {
          GetRunStopsAt(args, i, f, GetCall(exec));
          return;
        }
      }
      GetRunCompletes(args, f, GetCall(exec));
      return None;
    }

    /** One round of the GET loop: item `i` is fetched and, unless the call throws, printed. */
    method PrintGetItem(args: seq<string>, i: nat, exec: (string, Option<seq<string>>) -> Answer, ghost f: Flags, ghost start: string)
      returns (thrown: Option<Failure>)
      requires 1 <= i < |args| && firstPrint == (i == 1) && Options() == f
      requires AllAnswered(args[1..i], GetCall(exec)) && stdout == start + GetOutput(args[1..i], f, GetCall(exec))
      modifies this`stdout, this`firstPrint
      ensures Options() == f
      ensures thrown.Some? ==> thrown == Some(RemoteFailure) && GetCall(exec)(args[i]).Throws? && stdout == old(stdout)
      ensures thrown.None? ==> (!firstPrint && AllAnswered(args[1..i + 1], GetCall(exec))
                                && stdout == start + GetOutput(args[1..i + 1], f, GetCall(exec)))
    {
      ghost var done := GetOutput(args[1..i], f, GetCall(exec));
      var parameter := args[i];
      var answer := exec("get", Some([parameter]));
      if answer.Throws? {
        return Some(RemoteFailure);
      }
      var result := answer.value;
      if result.None? && optionPrintNullAsNaN {
        result := Some("nan");
      }
      var resultText := match result case Some(t) => t case None => "null";
      var line := (if optionDoNotPrintKeys then "" else parameter + ":") + resultText;
      assert line == ItemText(parameter, ResultOf(GetCall(exec)(parameter)), f);
      PrintItem(line);
      GetOutputStep(args, i, f, GetCall(exec));
      ConcatAssoc(start, done, Printed(line, i == 1, f));
      return None;
    }

    /** Printing one GET item: with -r, the separator unless it is the first print, and no newline. */
    method PrintItem(line: string)
      modifies this`stdout, this`firstPrint
      ensures stdout == old(stdout) + Printed(line, old(firstPrint), Options()) && !firstPrint
    {
      if optionNoNewLine {
        if !firstPrint {
          stdout := stdout + (if optionUseColon then ":" else " ");
          ConcatAssoc(old(stdout), Separator(Options()), line);
        }
        stdout := stdout + line;
      } else {
        stdout := stdout + line + "\n";
        ConcatAssoc(old(stdout), line, "\n");
      }
      firstPrint := false;
    }
  }
}
