/** The Doppler token classifier: given the value of the `DOPPLER_TOKEN`
    environment variable (absent or a string), it prints the kind of token or an
    error and exits. */
module ServiceTokenType {
  import opened Wrappers
  import opened PyStr
  import opened Process

  const NotSetMessage := "[ERROR] - DOPPLER_TOKEN is not set."
  const InvalidMessage := "[ERROR] - DOPPLER_TOKEN is not a valid Doppler token."

  /** The label printed for a type code, if the code is one of the three known
      ones. The service-account label is spelt as the script prints it. */
  function Label(code: string): (name: Option<string>)
    ensures name.Some? <==> code in {"pt", "st", "sa"}
  {
    if code == "pt" then Some("personal_token")
    else if code == "st" then Some("service_token")
    else if code == "sa" then Some("serivce_account")
    else None
  }

  /** What the script prints for a type code: its label, or nothing at all. */
  function LabelLines(code: string): (lines: seq<string>)
    ensures |lines| <= 1
    ensures lines == [] <==> Label(code).None?
  {
    match Label(code)
    case Some(l) => [l]
    case None => []
  }

  /** One run of the script. An absent and an empty token are both falsy. The
      second `startswith` test of the script always holds once the first has
      passed, so it is not a branch here. Falling off the end exits with 0. */
  function Run(token: Option<string>): (o: Outcome)
    ensures |o.lines| <= 1
    ensures o.status == Exited(0) || o.status == Exited(1)
  {
    if token.None? || token.value == "" then Outcome([NotSetMessage], Exited(0))
    else if !StartsWith(token.value, "dp") then Outcome([InvalidMessage], Exited(1))
    else
      var segments := Split(token.value, '.');
      if |segments| < 3 then Outcome([InvalidMessage], Exited(1))
      else Outcome(LabelLines(segments[1]), Exited(0))
  }

  /** An unset or empty token is reported as not set, with exit code 0, and no
      label is printed. */
  lemma UnsetToken(token: Option<string>)
    requires token == None || token == Some("")
    ensures Run(token) == Outcome([NotSetMessage], Exited(0))
  {
  }

  /** A non-empty token that does not start with `dp` is rejected with exit code 1. */
  lemma WrongPrefix(t: string)
    requires t != "" && !StartsWith(t, "dp")
    ensures Run(Some(t)) == Outcome([InvalidMessage], Exited(1))
  {
  }

  /** A token that starts with `dp` but has at most one dot, so fewer than three
      segments, is rejected with exit code 1. */
  lemma TooFewSegments(t: string)
    requires StartsWith(t, "dp") && Count(t, '.') <= 1
    ensures Run(Some(t)) == Outcome([InvalidMessage], Exited(1))
  {
  }

  /** A token `dp<first>.<code>.<rest>` is classified by `code` alone: the rest of
      the first segment is never inspected and `rest` may hold further dots. An
      unknown code, the empty one included, prints nothing and exits with 0. */
  lemma {:induction false} ClassifiedBySecondSegment(first: string, code: string, rest: string)
    requires '.' !in first && '.' !in code
    ensures Run(Some("dp" + first + "." + code + "." + rest))
      == Outcome(LabelLines(code), Exited(0))
  {
    var head := "dp" + first;
    assert '.' !in head by {
      forall k | 0 <= k < |head| ensures head[k] != '.' {
        if k >= 2 { assert head[k] == first[k - 2]; }
      }
    }
    var t := head + "." + code + "." + rest;
    assert t == "dp" + first + "." + code + "." + rest;
    assert t[..2] == "dp";
    SplitAtSeparator(head, '.', code + "." + rest);
    assert t == head + ['.'] + (code + "." + rest);
    SplitAtSeparator(code, '.', rest);
    assert code + "." + rest == code + ['.'] + rest;
    SplitWithoutSeparator(head, '.');
    SplitWithoutSeparator(code, '.');
    var segments := Split(t, '.');
    assert segments == [head] + [code] + Split(rest, '.');
    assert segments[1] == code;
  }

  /** `t` is written `dp<first>.<code>.<rest>` with no dot in `first` or `code`. */
  predicate TokenShape(t: string, first: string, code: string, rest: string)
  {
    '.' !in first && '.' !in code && t == "dp" + first + "." + code + "." + rest
  }

  /** Every token that passes both checks of the script has the shape
      `dp<first>.<code>.<rest>`, so `ClassifiedBySecondSegment` covers it: its
      second segment alone decides what is printed, and the run exits with 0. */
  lemma WellFormedTokenClassified(t: string)
    requires StartsWith(t, "dp") && Count(t, '.') >= 2
    ensures exists first, code, rest :: TokenShape(t, first, code, rest) &&
              Run(Some(t)) == Outcome(LabelLines(code), Exited(0))
  {
    var x, y := FirstSeparator(t, '.');
    // `x` runs up to the first dot; the two prefix characters are not dots.
    assert 2 <= |x|;
    var first := x[2..];
    assert x == "dp" + first by {
      assert x[..2] == t[..2];
    }
    assert '.' !in first by {
      forall k | 0 <= k < |first| ensures first[k] != '.' {
        assert first[k] == x[k + 2];
      }
    }
    var code, rest := FirstSeparator(y, '.');
    assert t == "dp" + first + "." + code + "." + rest;
    ClassifiedBySecondSegment(first, code, rest);
    assert TokenShape(t, first, code, rest);
  }

  /** Exit code 1 happens exactly for a non-empty token that fails the prefix test
      or has fewer than two dots; every other run ends with 0. */
  lemma ExitOneExactlyOnMalformedToken(token: Option<string>)
    ensures ExitCode(Run(token)) == 1 <==>
      token.Some? && token.value != "" &&
      (!StartsWith(token.value, "dp") || Count(token.value, '.') < 2)
  {
  }

  /** Only two characters of the prefix are checked: `dpabc.st.z` is a service token. */
  lemma PrefixNotFirstSegment()
    ensures Run(Some("dpabc.st.z")) == Outcome(["service_token"], Exited(0))
  {
    assert Run(Some("dpabc.st.z")) == Outcome(LabelLines("st"), Exited(0)) by {
      assert "dpabc.st.z" == "dp" + "abc" + "." + "st" + "." + "z";
      ClassifiedBySecondSegment("abc", "st", "z");
    }
  }

  lemma PersonalTokenExample()
    ensures Run(Some("dpX.pt.a")) == Outcome(["personal_token"], Exited(0))
  {
    assert Run(Some("dpX.pt.a")) == Outcome(LabelLines("pt"), Exited(0)) by {
      assert "dpX.pt.a" == "dp" + "X" + "." + "pt" + "." + "a";
      ClassifiedBySecondSegment("X", "pt", "a");
    }
  }

  lemma ServiceAccountExample()
    ensures Run(Some("dp.sa.abcdef")) == Outcome(["serivce_account"], Exited(0))
  {
    assert Run(Some("dp.sa.abcdef")) == Outcome(LabelLines("sa"), Exited(0)) by {
      assert "dp.sa.abcdef" == "dp" + "" + "." + "sa" + "." + "abcdef";
      ClassifiedBySecondSegment("", "sa", "abcdef");
    }
  }

  /** An unknown code prints nothing and the run still succeeds. */
  lemma UnknownCodeExample()
    ensures Run(Some("dp.xx.abcdef")) == Outcome([], Exited(0))
  {
    assert Run(Some("dp.xx.abcdef")) == Outcome(LabelLines("xx"), Exited(0)) by {
      assert "dp.xx.abcdef" == "dp" + "" + "." + "xx" + "." + "abcdef";
      ClassifiedBySecondSegment("", "xx", "abcdef");
    }
  }

  /** Empty segments are kept, so `dp...x` has an empty type code. */
  lemma EmptyCodeExample()
    ensures Run(Some("dp...x")) == Outcome([], Exited(0))
  {
    assert Run(Some("dp...x")) == Outcome(LabelLines(""), Exited(0)) by {
      assert "dp...x" == "dp" + "" + "." + "" + "." + ".x";
      ClassifiedBySecondSegment("", "", ".x");
    }
  }
}
