/** The project-directory finder: among the entries of the repository root it
    keeps the visible directories other than `scripts`, and prints the first of
    them that holds a `pyproject.toml`. */
module ProjectDirectory {
  import opened Wrappers
  import opened PyStr
  import opened Process
  import opened Seqs

  const WarnMessage := "[WARN] - No project directory found."

  /** The warning starts with `[WARN]` and has no whitespace at either end. */
  lemma WarnMessageShape()
    ensures Unpadded(WarnMessage) && StartsWith(WarnMessage, "[WARN]")
  {
    var w := WarnMessage;
    assert w[0] == '[' && w[|w| - 1] == '.';
    assert w[..6] == "[WARN]";
  }

  /** One name returned by listing the repository root, with what the file system
      says about it: whether it is a directory and whether `pyproject.toml`
      exists inside it. */
  datatype Entry = Entry(name: string, isDir: bool, hasPyproject: bool)

  /** The condition of the list comprehension. */
  predicate IsCandidate(e: Entry): (b: bool)
    ensures b <==> e.isDir && (e.name == [] || e.name[0] != '.') && e.name != "scripts"
  {
    e.isDir && !StartsWith(e.name, ".") && e.name != "scripts"
  }

  /** The list comprehension: the candidate entries, in listing order. */
  function Candidates(listing: seq<Entry>): (cs: seq<Entry>)
    ensures forall e :: e in cs <==> e in listing && IsCandidate(e)
    ensures |cs| <= |listing|
  {
    if listing == [] then []
    else (if IsCandidate(listing[0]) then [listing[0]] else []) + Candidates(listing[1..])
  }

  /** Filtering a concatenation filters each part: the comprehension keeps
      listing order. */
  lemma {:induction false} CandidatesOfConcat(a: seq<Entry>, b: seq<Entry>)
    ensures Candidates(a + b) == Candidates(a) + Candidates(b)
  {
    if a == [] {
      assert a + b == b;
    } else {
      assert (a + b)[0] == a[0];
      assert (a + b)[1..] == a[1..] + b;
      CandidatesOfConcat(a[1..], b);
    }
  }

  /** The candidates are a subsequence of the listing. */
  lemma {:induction false} CandidatesInListingOrder(listing: seq<Entry>)
    ensures IsSubsequence(Candidates(listing), listing)
  {
    if listing != [] {
      CandidatesInListingOrder(listing[1..]);
      var rest := Candidates(listing[1..]);
      if IsCandidate(listing[0]) {
        assert Candidates(listing) == [listing[0]] + rest;
        assert ([listing[0]] + rest)[1..] == rest;
      } else {
        assert Candidates(listing) == rest;
        SkipHead(rest, listing);
      }
    }
  }

  /** The position of the first candidate holding a `pyproject.toml`, if any. */
  function FirstWithPyproject(cs: seq<Entry>): (k: Option<nat>)
    ensures k.Some? ==> (k.value < |cs| && cs[k.value].hasPyproject &&
                         forall j :: 0 <= j < k.value ==> !cs[j].hasPyproject)
    ensures k.None? ==> forall j :: 0 <= j < |cs| ==> !cs[j].hasPyproject
  {
    if cs == [] then None
    else if cs[0].hasPyproject then Some(0)
    else match FirstWithPyproject(cs[1..])
      case Some(k) => Some(k + 1)
      case None => None
  }

  /** What one run of the script prints. Every path ends with exit code 0: the
      two `exit(0)` calls and falling off the end of the loop. */
  function Run(listing: seq<Entry>): (o: Outcome)
    ensures o.status == Exited(0) && |o.lines| <= 1
  {
    var cs := Candidates(listing);
    if cs == [] then Outcome([WarnMessage], Exited(0))
    else match FirstWithPyproject(cs)
      case Some(k) => Outcome([cs[k].name], Exited(0))
      case None => Outcome([], Exited(0))
  }

  /** The script itself: build the candidate list, warn if it is empty, otherwise
      scan it and stop at the first directory holding a `pyproject.toml`. */
  method FindProjectDirectory(listing: seq<Entry>) returns (o: Outcome)
    ensures o == Run(listing)
  {
    var dirList := Candidates(listing);
    if |dirList| == 0 {
      return Outcome([WarnMessage], Exited(0));
    }
    for i := 0 to |dirList|
      invariant forall j :: 0 <= j < i ==> !dirList[j].hasPyproject
    {
      if dirList[i].hasPyproject {
        return Outcome([dirList[i].name], Exited(0));
      }
    }
    return Outcome([], Exited(0));
  }

  /** No candidate: the warning is printed. */
  lemma {:induction false} NoCandidateWarns(listing: seq<Entry>)
    requires forall e :: e in listing ==> !IsCandidate(e)
    ensures Candidates(listing) == []
    ensures Run(listing) == Outcome([WarnMessage], Exited(0))
  {
    if listing != [] {
      assert listing[0] in listing;
      NoCandidateWarns(listing[1..]);
    }
  }

  /** The printed name is that of the first candidate in listing order holding a
      `pyproject.toml`: whatever comes before it in the listing is either not a
      candidate or has no `pyproject.toml`, and whatever comes after does not
      matter. */
  lemma {:induction false} FirstMatchPrinted(before: seq<Entry>, e: Entry, after: seq<Entry>)
    requires IsCandidate(e) && e.hasPyproject
    requires forall d :: d in before && IsCandidate(d) ==> !d.hasPyproject
    ensures Run(before + [e] + after) == Outcome([e.name], Exited(0))
  {
    CandidatesAround(before, e, after);
    FirstAfterPrefix(Candidates(before), e, Candidates(after));
  }

  /** A candidate in the middle of a listing stays between the candidates before
      and after it. */
  lemma CandidatesAround(before: seq<Entry>, e: Entry, after: seq<Entry>)
    requires IsCandidate(e)
    ensures Candidates(before + [e] + after) == Candidates(before) + [e] + Candidates(after)
  {
    CandidatesOfConcat(before + [e], after);
    CandidatesOfConcat(before, [e]);
    assert Candidates([e]) == [e] by {
      assert [e][1..] == [];
    }
  }

  /** The first holder of a `pyproject.toml` is found after a prefix that holds
      none. */
  lemma FirstAfterPrefix(pre: seq<Entry>, e: Entry, post: seq<Entry>)
    requires e.hasPyproject
    requires forall d :: d in pre ==> !d.hasPyproject
    ensures FirstWithPyproject(pre + [e] + post) == Some(|pre|)
  {
    var cs := pre + [e] + post;
    assert cs[|pre|] == e;
    forall j | 0 <= j < |pre| ensures !cs[j].hasPyproject {
      assert cs[j] == pre[j];
    }
  }

  /** Whatever is printed, other than the warning, is the name of a visible
      directory other than `scripts` that holds a `pyproject.toml`. */
  lemma PrintedNameIsCandidate(listing: seq<Entry>, name: string)
    requires Candidates(listing) != []
    requires Run(listing).lines == [name]
    ensures exists e :: (e in listing && e.name == name && e.isDir && e.hasPyproject &&
                         !StartsWith(name, ".") && name != "scripts")
  {
    var cs := Candidates(listing);
    var k := FirstWithPyproject(cs).value;
    assert cs[k] in cs;
  }

  /** Candidates exist but none holds a `pyproject.toml`: nothing is printed and
      the run succeeds. */
  lemma NoMatchPrintsNothing(listing: seq<Entry>)
    requires Candidates(listing) != []
    requires forall e :: e in listing && IsCandidate(e) ==> !e.hasPyproject
    ensures Run(listing) == Outcome([], Exited(0))
  {
  }
}
