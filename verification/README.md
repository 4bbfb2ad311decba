# Start-up of the TDengine `taos` shell, in Dafny

This project models the sequential start-up logic of the TDengine command-line
shell (`src/kit/shell/src/shellMain.c`, function `main`):

- the default value of the global `SShellArguments` record;
- the decoding of the `TDENGINE_CLOUD_URL` environment variable into a host and
  a port: everything up to the first `http://` (or, failing that, the first
  `https://`) is dropped, the rest is cut at its last colon, and the text after
  the colon is read with `atoi`; a remainder without a colon ends the process
  with `EXIT_FAILURE`;
- the override of the token by `TDENGINE_CLOUD_TOKEN`;
- the choice between the configuration dump, the network test and the
  interactive shell (with REST host conversion first when `restful` is set).

Files:

- `wrappers.dfy` — `Option` (a NULL pointer is `None`) and `Result` (a failure
  carries the exit status).
- `cstrings.dfy` — the C library routines used: `strstr` (`IndexOf`),
  `last_strstr` for a one-character pattern (`LastIndexOf`), `atoi` (`Atoi`),
  and a decimal formatter used to state round trips.
- `cloudurl.dfy` — `StripScheme`, `SplitAtLastColon`, `ParseCloudUrl` and their
  round-trip and uniqueness lemmas.
- `shellmain.dfy` — the argument record and its defaults, the environment
  overrides, the mode dispatch, and the whole `Startup` composition.

Strings are C strings without their terminating NUL (`seq<char>`); `getenv`
results are `Option<string>` inputs. `shellParseArgument` is an opaque function
parameter of `Startup`; the configuration dump, `taosNetTest` and the
interactive shell are the values of `Mode` rather than executed actions.

## Model

| member | source | states |
|---|---|---|
| CStrings.FindFrom | src/kit/shell/src/shellMain.c:107-113 | the index found from position i is an occurrence of the pattern with none between i and it; no index at all means no occurrence at or after i |
| CStrings.IndexOf | src/kit/shell/src/shellMain.c:107-113 | `strstr` returns a position exactly when the pattern occurs somewhere, and the position is the leftmost occurrence |
| CStrings.LastIndexOf | src/kit/shell/src/shellMain.c:117 | `last_strstr(s, ":")` is NULL exactly when there is no colon; otherwise it is a colon with no colon after it |
| CStrings.SkipSpaces | src/kit/shell/src/shellMain.c:122 | `atoi` first skips a prefix made only of C-locale white space, and what follows does not start with white space |
| CStrings.DigitPrefix | src/kit/shell/src/shellMain.c:122 | `atoi` converts the longest run of digits: a prefix of the text, all digits, followed by the end or a non-digit |
| CStrings.AtoiOfDigitsThenText | src/kit/shell/src/shellMain.c:122 | digits followed by text not starting with a digit convert to the value of the digits alone |
| CStrings.AtoiSkipsLeadingSpaces | src/kit/shell/src/shellMain.c:122 | white space before the number does not change what `atoi` reads, so `http://h: 80` has port 80 |
| CStrings.AtoiSignedDigits | src/kit/shell/src/shellMain.c:122 | white space, an optional `-` or `+`, digits and text not starting with a digit convert to the digits' value, negated after `-`: `http://h:-1` has port -1 |
| CStrings.AtoiWithoutDigits | src/kit/shell/src/shellMain.c:122 | text that starts with neither white space, a sign nor a digit, and the empty text, convert to 0: `http://h:` has port 0 |
| CStrings.AtoiOfDigits | src/kit/shell/src/shellMain.c:122 | a bare digit string converts to its decimal value |
| CStrings.AtoiFormatRoundTrip | src/kit/shell/src/shellMain.c:122 | formatting any natural number in decimal and reading it back with `atoi` gives the number |
| CStrings.AtoiFitsInt32 | src/kit/shell/src/shellMain.c:122 | a port text of one to nine digits converts within the 32-bit `int` range, so the conversion has defined behaviour |
| CloudUrl.StripScheme | src/kit/shell/src/shellMain.c:106-115 | the result is a suffix of the value: the text after the first `http://` if there is one, else after the first `https://` if there is one, else the whole value; the match may be anywhere |
| CloudUrl.StripHttpsPrefix | src/kit/shell/src/shellMain.c:107-115 | a value starting with `https://` and containing no `http://` loses exactly the `https://` |
| CloudUrl.SplitAtLastColon | src/kit/shell/src/shellMain.c:117-124 | no split exactly when there is no colon; otherwise host, ":" and port text concatenate back to the input and the port text has no colon |
| CloudUrl.SplitAtLastColonUnique | src/kit/shell/src/shellMain.c:117-124 | any decomposition host ":" tail with a colon-free tail is the split, so the split is the only one at the last colon |
| CloudUrl.ParseCloudUrl | src/kit/shell/src/shellMain.c:105-125 | failure (carrying the text the diagnostic prints) exactly when no colon remains after the scheme; on success the host is the remainder before its last colon and the port is `atoi` of the colon-free text after it |
| CloudUrl.HttpRoundTrip | src/kit/shell/src/shellMain.c:105-125 | `http://` + host + ":" + port decodes to that host and port for every host and every port |
| CloudUrl.HttpPortRoundTrip | src/kit/shell/src/shellMain.c:105-125 | every TCP port 0..65535 written after `http://host:` decodes back to itself, and its text converts within the range where `atoi` is defined |
| CloudUrl.HttpsRoundTrip | src/kit/shell/src/shellMain.c:105-125 | `https://` + host + ":" + port decodes to that host and port when the host has no `http://` |
| CloudUrl.BareRoundTrip | src/kit/shell/src/shellMain.c:105-125 | host + ":" + port without a scheme decodes to that host and port when the host mentions neither scheme |
| CloudUrl.HttpHostPortText | src/kit/shell/src/shellMain.c:117-124 | after `http://`, a host, a colon and a colon-free text decode to that host and `atoi` of that text, whatever colons the host contains |
| CloudUrl.TrailingTextAfterPort | src/kit/shell/src/shellMain.c:117-124 | a path after the port digits (no colon, not starting with a digit) is ignored: the port is the value of the digits |
| CloudUrl.MissingPortRejected | src/kit/shell/src/shellMain.c:117-120 | `http://` followed by text without a colon is rejected, reporting the text after the scheme |
| ShellMain.ApplyCloudUrl | src/kit/shell/src/shellMain.c:105-126 | unset variable: arguments unchanged; rejected value: `EXIT_FAILURE`; otherwise host and port are the decoded ones and no other field changes |
| ShellMain.ApplyCloudToken | src/kit/shell/src/shellMain.c:128-132 | a set token variable becomes the token unchanged, an unset one leaves the record as it was, and no other field changes either way |
| ShellMain.ApplyEnvironment | src/kit/shell/src/shellMain.c:105-132 | fails with `EXIT_FAILURE` exactly for a rejected URL; otherwise only host, port and token may change: host and port become the decoded endpoint when the URL is set and keep their values when it is unset, and the token is the variable's when set |
| ShellMain.SelectMode | src/kit/shell/src/shellMain.c:136-165 | the dump runs exactly when dump_config is set; the network test runs exactly when dump_config is off and the role is non-NULL with a first character other than NUL, with the record's host, port and packet settings; the interactive shell runs exactly in the remaining case and converts the host exactly when restful is set |
| ShellMain.Startup | src/kit/shell/src/shellMain.c:105-165 | start-up exits with `EXIT_FAILURE` exactly when the URL is rejected, before the command line is parsed; otherwise the final arguments are the parser applied to the environment-adjusted defaults, and the mode run is the one selected from them |
| ShellMain.SelectModeIsHighestRequested | src/kit/shell/src/shellMain.c:136-165 | the mode run is one the arguments request and has the best rank among them: dump, then network test, then interactive shell |
| ShellMain.ModeKindDependsOnThreeFields | src/kit/shell/src/shellMain.c:136-162 | records agreeing on dump_config, the role and restful run the same kind of mode, and the same interactive mode |
| ShellMain.NoEnvironmentKeepsDefaults | src/kit/shell/src/shellMain.c:71-106 | with neither variable set the record stays the default (host and token NULL) and the defaults select the interactive shell without REST conversion |
| ShellMain.NetTestWithDefaults | src/kit/shell/src/shellMain.c:85-90 | a role (not starting with NUL) alone on top of the defaults runs the network test with 1000-byte TCP packets, 100 of them, no host and port 0 |
| ShellMain.DefaultFlags | src/kit/shell/src/shellMain.c:78-85 | the default thread count is 5 and restful, raw time, password prompting and config dump are off |
| ShellMain.CloudUrlSetsEndpoint | src/kit/shell/src/shellMain.c:105-126 | `http://host:port` in the variable sets exactly that host and port in any record |
| ShellMain.CloudStartup | src/kit/shell/src/shellMain.c:105-165 | URL and token set with no options start the interactive shell with that host, port and token and all other defaults |
| ShellMain.MissingPortExits | src/kit/shell/src/shellMain.c:117-120 | a URL without a port ends start-up with `EXIT_FAILURE` whatever the token and command line |

## Left out

- The cancellation machinery: the signal handler posting `cancelSem`, the `cancelHandler` thread and its retry on a failed wait, and the endless create/join loop over `shellLoopQuery` (lines 21-48 and 167-188). They are concurrency and asynchronous signal delivery.
- `taos_stop_query`, `taosAcquireRef`/`taosReleaseRef` and the global `result` (lines 38-41): client-library calls whose definitions are not part of this model.
- `checkVersion` (lines 50-68): it compares `sizeof` values that are fixed on any conforming platform.
- `shellParseArgument`, `taosInitGlobalCfg`, `taosReadGlobalLogCfg`, `taosReadGlobalCfg`, `taosDumpGlobalCfg`, `taos_init`, `taosNetTest`, `convertHostToServAddr`, `shellInit` and `shellGetGrantInfo`: not part of this model. The parser is a function parameter; the others are the actions a `Mode` names, so their own exits (a failed config read, a failed `taos_init` or host conversion) are not modelled.
- `last_strstr` is not part of this model; it is taken, from its name and its use, to return the last occurrence of the pattern.
- The test on line 118 is `(tmp == NULL) && ((tmp + 1) != NULL)`; forming `tmp + 1` from a NULL pointer is undefined in C, and the model reads the test as "no colon", which is how it behaves in practice.
- CStrings.Atoi: the value is unbounded; C leaves `atoi` overflow undefined, and the model only shows (`AtoiFitsInt32`) that port texts of up to nine digits stay in range.
- ShellMain.ApplyCloudUrl: the host is a copy of the text; the source truncates the environment buffer in place (`tmp[0] = '\0'`) and points `args.host` into it, which aliasing the model does not represent.
- `SShellArguments` is declared in `shell.h`, which is not part of this model: only the fields the shown initialiser names, plus `port`, are modelled, and `port` is kept as `atoi`'s `int`. `password` is the non-Windows build's field; `file` and `dir` are the empty C string.
- Windows console set-up and `printf`/`fprintf` diagnostics: output only; the rejected text that the diagnostic prints is kept in `MissingPort`.
