# CI helper scripts: token classifier, framework detector, project-directory finder

A Dafny model of three helper scripts a continuous-integration workflow runs in
a Python project template:

- `scripts/service_token_type.py` looks at the `DOPPLER_TOKEN` environment
  variable. It prints whether the token is a personal token, a service token or a
  service account, or it prints an error.
- `scripts/get_project_directory.py` lists the repository root. It prints the
  first visible directory, other than `scripts`, that holds a `pyproject.toml`.
  If there is no candidate directory it prints a `[WARN]` line.
- `scripts/get_app_type.py` runs the finder. Unless the finder warned, it reads
  that directory's `pyproject.toml` and prints which of six web frameworks are
  Poetry dependencies.

Each run is modelled as a total function. It maps the script's inputs to an
`Outcome`: the lines printed on standard output, plus how the process ended
(`Exited(code)`, or `Raised(exception)` for an uncaught Python exception, which
the interpreter reports as exit code 1). The inputs are the environment value,
the directory listing, the finder's output, file existence and the parsed
manifest.

Modules, one per file:

| file | module | contents |
|---|---|---|
| `wrappers.dfy` | `Wrappers` | `Option` |
| `process.dfy` | `Process` | `Outcome`, exit code, the text `print` writes |
| `pystr.dfy` | `PyStr` | Python's `str.startswith`, `str.split(sep)`, `str.strip()` |
| `seqs.dfy` | `Seqs` | subsequence and distinctness facts |
| `service_token_type.dfy` | `ServiceTokenType` | the token classifier |
| `get_project_directory.dfy` | `ProjectDirectory` | the candidate filter, the first-match scan |
| `get_app_type.dfy` | `AppType` | the warning short-circuit, the six framework tests |

The comprehension and the membership tests are written as functions. The
finder's `for` loop with its early `exit` is the method
`FindProjectDirectory`, proved equal to the function `ProjectDirectory.Run`.
In each module, `Run` is one run of that script.

Three behaviours of the token classifier look unintended. The model keeps them
as the code has them:
- The service-account label is printed as `serivce_account`, with the
  misspelling.
- An unknown type code prints nothing and exits with 0. It does not raise an
  "unrecognised type" error.
- Every message goes to standard output.

## Model

| member | source | states |
|---|---|---|
| `PyStr.StartsWith` | scripts/service_token_type.py:9 | `s.startswith(p)` holds exactly when `p` is no longer than `s` and agrees with `s` at every position of `p` |
| `PyStr.Split` | scripts/service_token_type.py:14 | `split('.')` yields one piece more than there are separators, and no piece contains the separator (empty pieces are kept) |
| `PyStr.JoinSplit` | scripts/service_token_type.py:14 | joining the pieces with the separator gives back the original string |
| `PyStr.SplitJoin` | scripts/service_token_type.py:14 | splitting joined separator-free pieces gives back exactly those pieces |
| `PyStr.SplitAtSeparator` | scripts/service_token_type.py:14 | splitting at one separator splits each side independently |
| `PyStr.IsSpace` | scripts/get_app_type.py:18 | the characters `strip()` removes include tab, newline, vertical tab, form feed, carriage return and space, and no printable ASCII character other than space |
| `PyStr.StripLeading` | scripts/get_app_type.py:18 | the result is the suffix left after removing the leading whitespace, and it does not start with whitespace |
| `PyStr.StripTrailing` | scripts/get_app_type.py:18 | the result is the prefix left after removing the trailing whitespace, and it does not end with whitespace |
| `PyStr.Strip` | scripts/get_app_type.py:18 | the result is the input with whitespace removed at both ends and nowhere else |
| `PyStr.StripBothEnds` | scripts/get_app_type.py:18 | removing a whitespace prefix, then a whitespace suffix, leaves a slice of the input with no whitespace at its ends |
| `PyStr.StripPrintedLine` | scripts/get_app_type.py:18 | a printed line whose ends are not whitespace comes back from `strip()` without its newline |
| `Process.Stdout` | scripts/get_app_type.py:18 | the captured output of a run that printed nothing is empty, and that of a one-line run is the line followed by a newline |
| `Process.ExitCode` | scripts/get_app_type.py:24-41 | a run ended by an uncaught exception reports exit code 1; a run ended by `exit` or by reaching the end reports its own code |
| `ServiceTokenType.Label` | scripts/service_token_type.py:19-24 | exactly the codes `pt`, `st` and `sa` have a label |
| `ServiceTokenType.LabelLines` | scripts/service_token_type.py:19-24 | at most one line, and none exactly for an unknown code |
| `ServiceTokenType.Run` | scripts/service_token_type.py:8-28 | every run prints at most one line and exits normally with code 0 or 1 |
| `ServiceTokenType.UnsetToken` | scripts/service_token_type.py:26-28 | an absent or empty token prints only the "not set" error and exits 0 |
| `ServiceTokenType.WrongPrefix` | scripts/service_token_type.py:9-11 | a non-empty token not starting with `dp` prints the invalid-token error and exits 1 |
| `ServiceTokenType.TooFewSegments` | scripts/service_token_type.py:14-17 | a `dp` token with at most one dot prints the invalid-token error and exits 1 |
| `ServiceTokenType.ClassifiedBySecondSegment` | scripts/service_token_type.py:13-24 | for every `dp<first>.<code>.<rest>` with dot-free `first` and `code`, the output is decided by `code` alone, with exit 0 |
| `ServiceTokenType.WellFormedTokenClassified` | scripts/service_token_type.py:9-24 | every token that starts with `dp` and has at least two dots has the form `dp<first>.<code>.<rest>` with dot-free `first` and `code`, and its output is decided by `code` alone, with exit 0 |
| `ServiceTokenType.ExitOneExactlyOnMalformedToken` | scripts/service_token_type.py:8-28 | exit code 1 exactly when the token is non-empty and either lacks the `dp` prefix or has fewer than two dots |
| `ServiceTokenType.PrefixNotFirstSegment` | scripts/service_token_type.py:9-21 | `dpabc.st.z` is a service token: only two prefix characters are checked |
| `ServiceTokenType.PersonalTokenExample` | scripts/service_token_type.py:19-20 | `dpX.pt.a` prints `personal_token` |
| `ServiceTokenType.ServiceAccountExample` | scripts/service_token_type.py:23-24 | `dp.sa.abcdef` prints the literal `serivce_account` |
| `ServiceTokenType.UnknownCodeExample` | scripts/service_token_type.py:19-24 | `dp.xx.abcdef` prints nothing and exits 0 |
| `ServiceTokenType.EmptyCodeExample` | scripts/service_token_type.py:14-24 | `dp...x` has an empty second segment, so it prints nothing and exits 0 |
| `ProjectDirectory.IsCandidate` | scripts/get_project_directory.py:7 | an entry is a candidate exactly when it is a directory, its name does not begin with `.`, and its name is not `scripts` |
| `ProjectDirectory.Candidates` | scripts/get_project_directory.py:7 | an entry is a candidate exactly when it is listed, is a directory, does not start with `.` and is not `scripts` |
| `ProjectDirectory.CandidatesOfConcat` | scripts/get_project_directory.py:7 | filtering a concatenated listing filters each part and concatenates the results |
| `ProjectDirectory.CandidatesInListingOrder` | scripts/get_project_directory.py:7 | the candidates are a subsequence of the listing |
| `ProjectDirectory.FirstWithPyproject` | scripts/get_project_directory.py:15-18 | the index of the first candidate holding `pyproject.toml`, or none when no candidate holds one |
| `ProjectDirectory.Run` | scripts/get_project_directory.py:7-18 | every run exits 0 and prints at most one line |
| `ProjectDirectory.FindProjectDirectory` | scripts/get_project_directory.py:7-18 | the loop with its early exit prints exactly what `Run` specifies |
| `ProjectDirectory.WarnMessageShape` | scripts/get_project_directory.py:10 | the warning line starts with `[WARN]` and has no whitespace at either end |
| `ProjectDirectory.CandidatesAround` | scripts/get_project_directory.py:7 | a candidate in the middle of a listing stays between the candidates before it and those after it |
| `ProjectDirectory.FirstAfterPrefix` | scripts/get_project_directory.py:15-18 | the first candidate holding `pyproject.toml` after a run of candidates that hold none is the one found |
| `ProjectDirectory.NoCandidateWarns` | scripts/get_project_directory.py:9-11 | with no candidate entry, the candidate list is empty and the warning is printed, with exit 0 |
| `ProjectDirectory.FirstMatchPrinted` | scripts/get_project_directory.py:15-18 | for a listing `before + [e] + after`, where `e` is a candidate holding `pyproject.toml` and no earlier candidate holds one, exactly `e`'s name is printed |
| `ProjectDirectory.PrintedNameIsCandidate` | scripts/get_project_directory.py:7-17 | a printed name belongs to a listed directory that holds `pyproject.toml`, has no leading dot and is not `scripts` |
| `ProjectDirectory.NoMatchPrintsNothing` | scripts/get_project_directory.py:15-18 | if candidates exist but none holds `pyproject.toml`, nothing is printed and the exit code is 0 |
| `AppType.Mention` | scripts/get_app_type.py:41-42 | one test prints the name once when it is a key and prints nothing otherwise |
| `AppType.Detect` | scripts/get_app_type.py:41-57 | the six tests print at most six lines, each of them a dependency key |
| `AppType.LoadException` | scripts/get_app_type.py:24-32 | a load failure escapes as `FileNotFoundError` exactly when the file could not be found |
| `AppType.LookupException` | scripts/get_app_type.py:41 | an unreachable dependencies table raises `KeyError`, `TypeError` or `AttributeError` |
| `AppType.DetectIsSelect` | scripts/get_app_type.py:41-57 | the six independent tests select the dependency keys from the fixed framework list |
| `AppType.SelectMembers` | scripts/get_app_type.py:41-57 | a name is selected exactly when it is listed and is a key |
| `AppType.SelectInOrder` | scripts/get_app_type.py:41-57 | the selection is a subsequence of the list of names looked for |
| `AppType.SelectOnlyListedKeys` | scripts/get_app_type.py:41-57 | two key sets that agree on the listed names give the same selection |
| `AppType.FrameworksDistinct` | scripts/get_app_type.py:41-57 | the six framework names are pairwise different |
| `AppType.SelectFrameworks` | scripts/get_app_type.py:41-57 | selecting from the framework list gives exactly the listed keys, in list order, without duplicates, at most six |
| `AppType.DetectSpec` | scripts/get_app_type.py:41-57 | each framework is printed exactly when it is a key (case-sensitive), in the fixed order, with no duplicates and at most six lines |
| `AppType.DetectIgnoresOtherKeys` | scripts/get_app_type.py:41-57 | adding dependency keys outside the six frameworks changes nothing |
| `AppType.DetectExamples` | scripts/get_app_type.py:41-57 | several frameworks can be printed at once, and `FastAPI` or `Flask` are not recognised |
| `AppType.Run` | scripts/get_app_type.py:18-57 | a normal exit always has code 0, and a run that raises prints nothing first |
| `AppType.WarningShortCircuits` | scripts/get_app_type.py:20-22 | a `[WARN]` finder output prints "no application" and exits 0, whatever the file system and the manifest hold |
| `AppType.NoPyprojectPrintsNothing` | scripts/get_app_type.py:36 | with no `pyproject.toml` at the resolved path, nothing is printed and the exit code is 0 |
| `AppType.FrameworksPrinted` | scripts/get_app_type.py:36-57 | with a readable manifest, the printed lines are exactly the frameworks that are keys, in order and without repetition, and the exit code is 0 |
| `AppType.UnusableManifestFails` | scripts/get_app_type.py:24-41 | an unloadable manifest, or one without a reachable `tool.poetry.dependencies` table, raises (exit 1) before printing. A missing file gives `FileNotFoundError`, invalid TOML `ValueError`, a directory `IsADirectoryError`, an unreadable file `PermissionError`, bytes that are not UTF-8 `UnicodeDecodeError`. A missing level gives `KeyError`. A non-table `tool` or `tool.poetry` gives `TypeError`, a non-table `dependencies` `AttributeError` |
| `AppType.UnusableManifestRaises` | scripts/get_app_type.py:24-41 | an unusable manifest ends the run with no output and with the exception of the load failure or of the failed `tool.poetry.dependencies` lookup |
| `AppType.NoProjectDirectoryMeansNoApplication` | scripts/get_app_type.py:18-22 | when the finder has no candidate, its printed warning survives `strip()` and becomes "no application" |
| `AppType.WarningLikeDirectoryName` | scripts/get_app_type.py:18-22 | when the directory the finder picks has a name starting with `[WARN]`, it is taken for the finder's warning and reported as "no application" |
| `AppType.WarningSurvivesStrip` | scripts/get_app_type.py:18-20 | a printed line that starts with `[WARN]` still starts with `[WARN]` after `strip()`, whatever whitespace it ends with |
| `PyStr.StripKeepsPrefix` | scripts/get_app_type.py:18 | a prefix that neither starts nor ends with whitespace is kept by `strip()`, whatever follows it |

## Left out

- Reading `DOPPLER_TOKEN` from the environment: the value is the `Option<string>` parameter of `ServiceTokenType.Run`.
- The `BASE`/`MAIN` path computations, the interpreter path `.python/bin/python` and all path joining: plumbing with no decision in it.
- Running the finder as a subprocess: `AppType.Run` takes its standard output as a string. UTF-8 decoding is not modelled. A finder that crashes is seen only through the (possibly empty) output it leaves behind.
- A missing interpreter `.python/bin/python`: `subprocess.run` then raises `FileNotFoundError` at line 18 of `scripts/get_app_type.py` before anything is printed (exit code 1). `AppType.Run` assumes the finder could be started, so it cannot represent this path.
- `os.listdir`, `os.path.isdir` and `os.path.exists`: each listed name is an `Entry` carrying its two file-system answers. In `AppType.Run`, the existence of the resolved `pyproject.toml` is a `bool` input. That includes the repository root when the finder printed nothing.
- TOML parsing with `tomllib`: a manifest is either a load failure or the outcome of looking up `tool.poetry.dependencies`. A load failure is a missing file, invalid TOML, a directory, an unreadable file or bytes that are not UTF-8. The lookup gives either a key set or one of three failures.
- Other `OSError`s that `open` can raise (such as too many open files) are not modelled; `IsADirectoryError` and `PermissionError` stand for them.
- The text of exception messages and tracebacks: only the exception's kind and the exit code 1 are modelled.
- Process termination itself: `exit` and `print` are represented by the `Outcome` value.
- Idempotence of classification needs no lemma: `ServiceTokenType.Run` is a function, so equal tokens give equal outcomes.
- `.github/workflows/src/initial_release.py` (release automation) is not part of this model.
