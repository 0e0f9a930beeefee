/** The application-type detector: it runs the project-directory finder, and
    unless the finder warned, reads the project's `pyproject.toml` and prints, one
    per line, the known web frameworks among its Poetry dependencies. */
module AppType {
  import opened PyStr
  import opened Process
  import opened Seqs
  import ProjectDirectory

  const NoApplicationMessage := "[ERROR] - No application is configured in this repository."

  /** The frameworks looked for, in the order the script tests and prints them. */
  const Frameworks: seq<string> := ["fastapi", "click", "flask", "django", "streamlit", "reflex"]

  /** Why `load_pyproject_toml` failed. A missing file and invalid TOML are turned
      into `FileNotFoundError` and `ValueError`; a path that is a directory, a file
      that may not be read, and bytes that are not UTF-8 escape as the exceptions
      `open` and `tomllib.load` raise for them. */
  datatype LoadError = NotFound | InvalidToml | IsDirectory | NoPermission | NotUtf8

  /** What `_toml_data["tool"]["poetry"]["dependencies"].keys()` finds in a parsed
      manifest: the keys of the table; a level that is missing from a table; a
      `tool` or `tool.poetry` that is not a table, so it cannot be indexed by a
      name; or a `dependencies` value that is not a table, so it has no `keys`. */
  datatype Dependencies = Keys(keys: set<string>) | MissingKey | NotSubscriptable | NoKeysMethod

  /** The manifest as the script gets to see it. */
  datatype Manifest = LoadFailed(reason: LoadError) | Loaded(dependencies: Dependencies)

  /** The exception `load_pyproject_toml` lets escape for each failure. */
  function LoadException(reason: LoadError): (e: PyException)
    ensures e.FileNotFoundError? <==> reason.NotFound?
  {
    match reason
    case NotFound => FileNotFoundError
    case InvalidToml => ValueError
    case IsDirectory => IsADirectoryError
    case NoPermission => PermissionError
    case NotUtf8 => UnicodeDecodeError
  }

  /** The exception the dependency lookup of the first test raises when there is
      no table to look in. */
  function LookupException(d: Dependencies): (e: PyException)
    requires !d.Keys?
    ensures e == KeyError || e == TypeError || e == AttributeError
  {
    match d
    case MissingKey => KeyError
    case NotSubscriptable => TypeError
    case NoKeysMethod => AttributeError
  }

  /** One `if "<name>" in ...keys(): print("<name>")` test. */
  function Mention(name: string, keys: set<string>): (printed: seq<string>)
    ensures printed == [] || printed == [name]
    ensures name in printed <==> name in keys
  {
    if name in keys then [name] else []
  }

  /** The six independent tests, in the order the script makes them. */
  function Detect(keys: set<string>): (printed: seq<string>)
    ensures |printed| <= 6
    ensures forall n :: n in printed ==> n in keys
  {
    Mention("fastapi", keys) + Mention("click", keys) + Mention("flask", keys) +
    Mention("django", keys) + Mention("streamlit", keys) + Mention("reflex", keys)
  }

  /** Reference definition: the names of `names` that are keys, in the order of
      `names`. */
  function Select(names: seq<string>, keys: set<string>): seq<string>
  {
    if names == [] then [] else Mention(names[0], keys) + Select(names[1..], keys)
  }

  /** The six tests select from `Frameworks`. */
  lemma DetectIsSelect(keys: set<string>)
    ensures Detect(keys) == Select(Frameworks, keys)
  {
    SelectCons("reflex", [], keys);
    SelectCons("streamlit", ["reflex"], keys);
    SelectCons("django", ["streamlit", "reflex"], keys);
    SelectCons("flask", ["django", "streamlit", "reflex"], keys);
    SelectCons("click", ["flask", "django", "streamlit", "reflex"], keys);
    SelectCons("fastapi", ["click", "flask", "django", "streamlit", "reflex"], keys);
    assert Select([], keys) == [];
    Regroup(Mention("fastapi", keys), Mention("click", keys), Mention("flask", keys),
            Mention("django", keys), Mention("streamlit", keys), Mention("reflex", keys));
  }

  /** Concatenation of the six test results, regrouped to the right. */
  lemma Regroup(m1: seq<string>, m2: seq<string>, m3: seq<string>,
                m4: seq<string>, m5: seq<string>, m6: seq<string>)
    ensures m1 + m2 + m3 + m4 + m5 + m6 == m1 + (m2 + (m3 + (m4 + (m5 + (m6 + [])))))
  {
  }

  /** One step of `Select`. */
  lemma SelectCons(name: string, names: seq<string>, keys: set<string>)
    ensures Select([name] + names, keys) == Mention(name, keys) + Select(names, keys)
  {
  }

  /** A name is selected exactly when it is listed and is a key. */
  lemma {:induction false} SelectMembers(names: seq<string>, keys: set<string>)
    ensures forall n :: n in Select(names, keys) <==> n in names && n in keys
  {
    if names != [] {
      SelectMembers(names[1..], keys);
      assert names == [names[0]] + names[1..];
    }
  }

  /** The selection keeps the order of `names`. */
  lemma {:induction false} SelectInOrder(names: seq<string>, keys: set<string>)
    ensures IsSubsequence(Select(names, keys), names)
  {
    if names != [] {
      SelectInOrder(names[1..], keys);
      var rest := Select(names[1..], keys);
      if names[0] in keys {
        assert Select(names, keys) == [names[0]] + rest;
        assert ([names[0]] + rest)[1..] == rest;
      } else {
        assert Select(names, keys) == rest;
        SkipHead(rest, names);
      }
    }
  }

  /** Keys that are not listed play no part in the selection. */
  lemma {:induction false} SelectOnlyListedKeys(names: seq<string>, keys: set<string>, keys': set<string>)
    requires forall n :: n in names ==> (n in keys <==> n in keys')
    ensures Select(names, keys) == Select(names, keys')
  {
    if names != [] {
      assert names[0] in names;
      SelectOnlyListedKeys(names[1..], keys, keys');
    }
  }

  /** What the six tests print: each framework exactly when it is a key (compared
      exactly, so case matters), in the fixed order, each at most once, so at most
      six lines. */
  lemma DetectSpec(keys: set<string>)
    ensures forall n :: n in Detect(keys) <==> n in Frameworks && n in keys
    ensures IsSubsequence(Detect(keys), Frameworks)
    ensures Distinct(Detect(keys)) && |Detect(keys)| <= 6
  {
    DetectIsSelect(keys);
    SelectFrameworks(keys);
  }

  /** `Select` over the framework list, stated without the six tests. */
  lemma SelectFrameworks(keys: set<string>)
    ensures forall n :: n in Select(Frameworks, keys) <==> n in Frameworks && n in keys
    ensures IsSubsequence(Select(Frameworks, keys), Frameworks)
    ensures Distinct(Select(Frameworks, keys)) && |Select(Frameworks, keys)| <= 6
  {
    SelectMembers(Frameworks, keys);
    SelectInOrder(Frameworks, keys);
    FrameworksDistinct();
    SubsequenceOfDistinct(Select(Frameworks, keys), Frameworks);
  }

  /** The six framework names are pairwise different. */
  lemma FrameworksDistinct()
    ensures Distinct(Frameworks)
  {
    var f := Frameworks;
    forall i, j | 0 <= i < j < |f| ensures f[i] != f[j] {
      assert |f[i]| != |f[j]| || f[i][0] != f[j][0];
    }
  }

  /** Dependencies other than the six frameworks change nothing. */
  lemma DetectIgnoresOtherKeys(keys: set<string>, others: set<string>)
    requires forall n :: n in others ==> n !in Frameworks
    ensures Detect(keys + others) == Detect(keys)
  {
    DetectIsSelect(keys);
    DetectIsSelect(keys + others);
    SelectOnlyListedKeys(Frameworks, keys, keys + others);
  }

  /** Several frameworks can be printed at once; names that differ only in case
      are not recognised. */
  lemma DetectExamples()
    ensures Detect({"django", "fastapi", "requests"}) == ["fastapi", "django"]
    ensures Detect({"FastAPI", "Flask"}) == []
  {
  }

  /** One run of the script on the finder's standard output. `pyprojectExists` is
      whether `pyproject.toml` exists in the directory the output names (the
      repository root itself when the output is empty). */
  function Run(finderStdout: string, pyprojectExists: bool, manifest: Manifest): (o: Outcome)
    ensures o.status.Exited? ==> o.status.code == 0
    ensures o.status.Raised? ==> o.lines == []
  {
    var app := Strip(finderStdout);
    if StartsWith(app, "[WARN]") then Outcome([NoApplicationMessage], Exited(0))
    else if !pyprojectExists then Outcome([], Exited(0))
    else match manifest
      case LoadFailed(reason) => Outcome([], Raised(LoadException(reason)))
      case Loaded(Keys(keys)) => Outcome(Detect(keys), Exited(0))
      case Loaded(d) => Outcome([], Raised(LookupException(d)))
  }

  /** A warning from the finder is reported as "no application" with exit code 0,
      whatever the file system and the manifest hold: the manifest is not read. */
  lemma WarningShortCircuits(finderStdout: string, exists1: bool, m1: Manifest, exists2: bool, m2: Manifest)
    requires StartsWith(Strip(finderStdout), "[WARN]")
    ensures Run(finderStdout, exists1, m1) == Run(finderStdout, exists2, m2)
      == Outcome([NoApplicationMessage], Exited(0))
  {
  }

  /** No `pyproject.toml`: nothing is printed and the run succeeds, whatever the
      manifest would have held. */
  lemma NoPyprojectPrintsNothing(finderStdout: string, manifest: Manifest)
    requires !StartsWith(Strip(finderStdout), "[WARN]")
    ensures Run(finderStdout, false, manifest) == Outcome([], Exited(0))
  {
  }

  /** With a readable manifest, each framework is printed exactly when it is one of
      the dependency keys, in the fixed order and without repetition. */
  lemma FrameworksPrinted(finderStdout: string, keys: set<string>)
    requires !StartsWith(Strip(finderStdout), "[WARN]")
    ensures Run(finderStdout, true, Loaded(Keys(keys))).status == Exited(0)
    ensures forall n :: n in Run(finderStdout, true, Loaded(Keys(keys))).lines <==>
                        n in Frameworks && n in keys
    ensures IsSubsequence(Run(finderStdout, true, Loaded(Keys(keys))).lines, Frameworks)
    ensures Distinct(Run(finderStdout, true, Loaded(Keys(keys))).lines)
  {
    DetectSpec(keys);
  }

  /** A manifest that cannot be loaded, or in which `tool.poetry.dependencies` is
      not a table that can be reached, ends the run with an uncaught exception
      (exit code 1) before anything is printed; it is not an empty result. */
  lemma UnusableManifestFails(finderStdout: string, manifest: Manifest)
    requires !StartsWith(Strip(finderStdout), "[WARN]")
    requires manifest.LoadFailed? || !manifest.dependencies.Keys?
    ensures Run(finderStdout, true, manifest).lines == []
    ensures ExitCode(Run(finderStdout, true, manifest)) == 1
    ensures manifest == LoadFailed(NotFound) ==>
              Run(finderStdout, true, manifest).status == Raised(FileNotFoundError)
    ensures manifest == LoadFailed(InvalidToml) ==>
              Run(finderStdout, true, manifest).status == Raised(ValueError)
    ensures manifest == LoadFailed(IsDirectory) ==>
              Run(finderStdout, true, manifest).status == Raised(IsADirectoryError)
    ensures manifest == LoadFailed(NoPermission) ==>
              Run(finderStdout, true, manifest).status == Raised(PermissionError)
    ensures manifest == LoadFailed(NotUtf8) ==>
              Run(finderStdout, true, manifest).status == Raised(UnicodeDecodeError)
    ensures manifest == Loaded(MissingKey) ==>
              Run(finderStdout, true, manifest).status == Raised(KeyError)
    ensures manifest == Loaded(NotSubscriptable) ==>
              Run(finderStdout, true, manifest).status == Raised(TypeError)
    ensures manifest == Loaded(NoKeysMethod) ==>
              Run(finderStdout, true, manifest).status == Raised(AttributeError)
  {
    UnusableManifestRaises(finderStdout, manifest);
  }

  /** The exception an unusable manifest raises, read off `Run`'s branches. */
  lemma UnusableManifestRaises(finderStdout: string, manifest: Manifest)
    requires !StartsWith(Strip(finderStdout), "[WARN]")
    requires manifest.LoadFailed? || !manifest.dependencies.Keys?
    ensures Run(finderStdout, true, manifest) ==
      Outcome([], Raised(if manifest.LoadFailed? then LoadException(manifest.reason)
                         else LookupException(manifest.dependencies)))
  {
  }

  /** When the finder finds no candidate directory, its warning reaches this
      script through standard output and is reported as "no application". */
  lemma NoProjectDirectoryMeansNoApplication(listing: seq<ProjectDirectory.Entry>, pyprojectExists: bool, manifest: Manifest)
    requires ProjectDirectory.Candidates(listing) == []
    ensures Run(Stdout(ProjectDirectory.Run(listing).lines), pyprojectExists, manifest)
      == Outcome([NoApplicationMessage], Exited(0))
  {
    var w := ProjectDirectory.WarnMessage;
    ProjectDirectory.WarnMessageShape();
    assert ProjectDirectory.Run(listing).lines == [w];
    WarningSurvivesStrip(w);
  }

  /** A printed line that starts with `[WARN]` still starts with `[WARN]` once read
      back and stripped, whatever whitespace it ends with. */
  lemma WarningSurvivesStrip(line: string)
    requires StartsWith(line, "[WARN]")
    ensures StartsWith(Strip(Stdout([line])), "[WARN]")
  {
    var out := Stdout([line]);
    assert out[..6] == line[..6];
    StripKeepsPrefix(out, "[WARN]");
  }

  /** Because only the text of the finder's output is passed on, a project
      directory whose name starts with `[WARN]` is taken for the finder's warning,
      and its manifest is never read. */
  lemma WarningLikeDirectoryName(before: seq<ProjectDirectory.Entry>, name: string,
                                 after: seq<ProjectDirectory.Entry>, manifest: Manifest)
    requires StartsWith(name, "[WARN]")
    requires forall d :: d in before && ProjectDirectory.IsCandidate(d) ==> !d.hasPyproject
    ensures var listing := before + [ProjectDirectory.Entry(name, true, true)] + after;
      Run(Stdout(ProjectDirectory.Run(listing).lines), true, manifest)
        == Outcome([NoApplicationMessage], Exited(0))
  {
    var e := ProjectDirectory.Entry(name, true, true);
    assert name[0] == '[';
    assert ProjectDirectory.IsCandidate(e);
    ProjectDirectory.FirstMatchPrinted(before, e, after);
    WarningSurvivesStrip(name);
  }
}
