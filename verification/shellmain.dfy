/** The sequential start-up of the `taos` shell (shellMain.c, `main`): the
    default argument record, the two cloud environment variables that may
    override it, and the choice of what the process goes on to do.

    Environment variables are `Option<string>` inputs (`None` is an unset
    variable). The command-line parser is an opaque function parameter, and the
    configuration dump, network test and interactive shell are the opaque
    actions `SelectMode` chooses between. */
module ShellMain {
  import opened Wrappers
  import opened CStrings
  import opened CloudUrl

  const ExitSuccess: int := 0
  const ExitFailure: int := 1

  /** The shell's argument record. A NULL `char *` field is `None`. */
  datatype ShellArguments = ShellArguments(
    host: Option<string>,
    password: Option<string>,
    user: Option<string>,
    database: Option<string>,
    timezone: Option<string>,
    restful: bool,
    token: Option<string>,
    isRawTime: bool,
    isUsePasswd: bool,
    dumpConfig: bool,
    file: string,
    dir: string,
    threadNum: int,
    commands: Option<string>,
    port: int,
    pktLen: int,
    pktNum: int,
    pktType: string,
    netTestRole: Option<string>)

  /** The initial value of the global record. `port` is not named in its
      initialiser, so as a static object it starts at zero; `file` and `dir`
      hold the empty C string. */
  const DefaultArguments: ShellArguments := ShellArguments(
    host := None,
    password := None,
    user := None,
    database := None,
    timezone := None,
    restful := false,
    token := None,
    isRawTime := false,
    isUsePasswd := false,
    dumpConfig := false,
    file := "",
    dir := "",
    threadNum := 5,
    commands := None,
    port := 0,
    pktLen := 1000,
    pktNum := 100,
    pktType := "TCP",
    netTestRole := None)

  /** The two environment variables read before the command line. */
  datatype Environment = Environment(cloudUrl: Option<string>, cloudToken: Option<string>)

  /** What `main` goes on to do once the arguments are known. */
  datatype Mode =
    | DumpConfig
      /** `taosNetTest` with exactly the arguments it is handed. */
    | NetTest(role: string, host: Option<string>, port: int, pktLen: int, pktNum: int, pktType: string)
      /** The interactive shell, after converting the host to a REST server
          address when `convertHost` is set. */
    | Interactive(convertHost: bool)

  /** How start-up ends: an exit before any mode runs, or a mode to run with
      the final arguments. */
  datatype Launch = Exit(status: int) | Run(mode: Mode, args: ShellArguments)

  /** A URL value that the decoder rejects. */
  ghost predicate BadCloudUrl(url: Option<string>) {
    url.Some? && ':' !in StripScheme(url.value)
  }

  /** `TDENGINE_CLOUD_URL`, when set, replaces the host and the port. */
  function ApplyCloudUrl(a: ShellArguments, url: Option<string>): (r: Result<ShellArguments, int>)
    ensures r.Failure? <==> BadCloudUrl(url)
    ensures r.Failure? ==> r.error == ExitFailure
    ensures url.None? ==> r == Success(a)
    ensures r.Success? && url.Some? ==>
      var rest := StripScheme(url.value);
      && r.value.host.Some?
      && var n := |r.value.host.value|;
      && n < |rest| && rest[..n] == r.value.host.value && rest[n] == ':'
      && ':' !in rest[n + 1..]
      && r.value.port == Atoi(rest[n + 1..])
    ensures r.Success? ==> r.value.(host := a.host, port := a.port) == a
  {
    match url
    case None => Success(a)
    case Some(u) =>
      match ParseCloudUrl(u)
      case Failure(_) => Failure(ExitFailure)
      case Success(e) => Success(a.(host := Some(e.host), port := e.port))
  }

  /** `TDENGINE_CLOUD_TOKEN`, when set, becomes the token unchanged. */
  function ApplyCloudToken(a: ShellArguments, token: Option<string>): (r: ShellArguments)
    ensures token.Some? ==> r.token == token
    ensures token.None? ==> r == a
    ensures r.(token := a.token) == a
  {
    match token
    case None => a
    case Some(t) => a.(token := Some(t))
  }

  /** Both environment overrides, in source order: a rejected URL ends the
      process before the token is looked at. */
  function ApplyEnvironment(a: ShellArguments, env: Environment): (r: Result<ShellArguments, int>)
    ensures r.Failure? <==> BadCloudUrl(env.cloudUrl)
    ensures r.Failure? ==> r.error == ExitFailure
    ensures r.Success? ==> r.value.(host := a.host, port := a.port, token := a.token) == a
    ensures r.Success? && env.cloudUrl.None? ==> r.value.host == a.host && r.value.port == a.port
    ensures r.Success? ==> r.value.token == (if env.cloudToken.Some? then env.cloudToken else a.token)
    ensures r.Success? && env.cloudUrl.Some? ==>
      var e := ParseCloudUrl(env.cloudUrl.value);
      e.Success? && r.value.host == Some(e.value.host) && r.value.port == e.value.port
  {
    var withUrl :- ApplyCloudUrl(a, env.cloudUrl);
    Success(ApplyCloudToken(withUrl, env.cloudToken))
  }

  /** The network test is asked for by a non-NULL role whose first character
      is not NUL. A C string ends at its first NUL, so a role given with
      one up front is the empty string. */
  predicate RequestsNetTest(a: ShellArguments) {
    a.netTestRole.Some? && |a.netTestRole.value| > 0 && a.netTestRole.value[0] != '\0'
  }

  /** The dispatch of lines 136-165: configuration dump first, then the
      network test, then the interactive shell. */
  function SelectMode(a: ShellArguments): (r: Mode)
    ensures r.DumpConfig? <==> a.dumpConfig
    ensures r.NetTest? <==> !a.dumpConfig && RequestsNetTest(a)
    ensures r.NetTest? ==>
      && Some(r.role) == a.netTestRole
      && r.host == a.host && r.port == a.port
      && r.pktLen == a.pktLen && r.pktNum == a.pktNum && r.pktType == a.pktType
    ensures r.Interactive? <==> !a.dumpConfig && !RequestsNetTest(a)
    ensures r.Interactive? ==> r.convertHost == a.restful
  {
    if a.dumpConfig then DumpConfig
    else if RequestsNetTest(a) then
      NetTest(a.netTestRole.value, a.host, a.port, a.pktLen, a.pktNum, a.pktType)
    else Interactive(a.restful)
  }

  /** The whole sequential part of `main`: environment overrides applied to the
      defaults, then the command line (`parse`), then the dispatch. */
  function Startup(env: Environment, parse: ShellArguments -> ShellArguments): (r: Launch)
    ensures r.Exit? <==> BadCloudUrl(env.cloudUrl)
    ensures r.Exit? ==> r.status == ExitFailure
    ensures r.Run? ==> r.mode == SelectMode(r.args)
    ensures r.Run? ==>
      var env' := ApplyEnvironment(DefaultArguments, env);
      env'.Success? && r.args == parse(env'.value)
  {
    match ApplyEnvironment(DefaultArguments, env)
    case Failure(status) => Exit(status)
    case Success(a) =>
      var parsed := parse(a);
      Run(SelectMode(parsed), parsed)
  }

  /* --------------------------------------------------- precedence as a rank */

  datatype ModeKind = DumpKind | NetTestKind | InteractiveKind

  function KindOf(m: Mode): ModeKind {
    match m
    case DumpConfig => DumpKind
    case NetTest(_, _, _, _, _, _) => NetTestKind
    case Interactive(_) => InteractiveKind
  }

  /** Lower ranks win. */
  function Rank(k: ModeKind): nat {
    match k
    case DumpKind => 0
    case NetTestKind => 1
    case InteractiveKind => 2
  }

  /** The modes the arguments ask for; the interactive shell is always
      available as the fallback. */
  ghost function Requested(a: ShellArguments): set<ModeKind> {
    (if a.dumpConfig then {DumpKind} else {})
    + (if RequestsNetTest(a) then {NetTestKind} else {})
    + {InteractiveKind}
  }

  /* ---------------------------------------------------------------- lemmas */

  /** `SelectMode` runs the highest-ranked of the requested modes. */
  lemma SelectModeIsHighestRequested(a: ShellArguments)
    ensures KindOf(SelectMode(a)) in Requested(a)
    ensures forall k :: k in Requested(a) ==> Rank(KindOf(SelectMode(a))) <= Rank(k)
  {
  }

  /** Which mode runs depends only on `dump_config`, the role and `restful`. */
  lemma ModeKindDependsOnThreeFields(a: ShellArguments, b: ShellArguments)
    requires a.dumpConfig == b.dumpConfig
    requires a.netTestRole == b.netTestRole
    requires a.restful == b.restful
    ensures KindOf(SelectMode(a)) == KindOf(SelectMode(b))
    ensures SelectMode(a).Interactive? ==> SelectMode(a) == SelectMode(b)
  {
  }

  /** With nothing set, start-up keeps every default: no host, port 0, no
      token, and the plain interactive shell without REST conversion. */
  lemma NoEnvironmentKeepsDefaults()
    ensures ApplyEnvironment(DefaultArguments, Environment(None, None)) == Success(DefaultArguments)
    ensures DefaultArguments.host.None? && DefaultArguments.token.None?
    ensures SelectMode(DefaultArguments) == Interactive(false)
  {
  }

  /** A network test requested on top of the defaults uses 1000-byte TCP
      packets, 100 of them, towards no host and port 0. */
  lemma NetTestWithDefaults(role: string)
    requires |role| > 0 && role[0] != '\0'
    ensures SelectMode(DefaultArguments.(netTestRole := Some(role)))
      == NetTest(role, None, 0, 1000, 100, "TCP")
  {
  }

  /** The remaining defaults: five threads, and raw time, password prompting
      and the REST interface all off. */
  lemma DefaultFlags()
    ensures DefaultArguments.threadNum == 5
    ensures !DefaultArguments.restful && !DefaultArguments.isRawTime
    ensures !DefaultArguments.isUsePasswd && !DefaultArguments.dumpConfig
  {
  }

  /** A cloud URL `http://host:port` sets exactly the host and the port. */
  lemma CloudUrlSetsEndpoint(a: ShellArguments, host: string, p: nat)
    ensures ApplyCloudUrl(a, Some(Http + host + [':'] + FormatNat(p)))
      == Success(a.(host := Some(host), port := p))
  {
    HttpRoundTrip(host, p);
  }

  /** Cloud URL and token together, with no command-line options, start the
      interactive shell against that host and port with that token. */
  lemma CloudStartup(host: string, p: nat, token: string)
    ensures Startup(Environment(Some(Http + host + [':'] + FormatNat(p)), Some(token)), a => a)
      == Run(Interactive(false), DefaultArguments.(host := Some(host), port := p, token := Some(token)))
  {
    CloudUrlSetsEndpoint(DefaultArguments, host, p);
  }

  /** A URL without a port ends the process with `EXIT_FAILURE` whatever the
      token and the command line would have been. */
  lemma MissingPortExits(host: string, token: Option<string>, parse: ShellArguments -> ShellArguments)
    requires ':' !in host
    ensures Startup(Environment(Some(Http + host), token), parse) == Exit(ExitFailure)
  {
    MissingPortRejected(host);
  }
}
