/** HostingStartupHostBuilderExtensions: reading the hosting-startup keys
    of the host configuration and deciding which assemblies to load. The
    loading and activation of the assemblies themselves is not modelled;
    the decision is a list of load steps. */
module HostingStartup {
  import opened Common

  // Configuration keys (HostingStartupDefaults).
  const HostingStartupAssembliesKey: string := "hostingStartupAssemblies"
  const HostingStartupExcludeAssembliesKey: string := "hostingStartupExcludeAssemblies"
  const PreventHostingStartupKey: string := "preventHostingStartup"
  const HostingStartupAssemblyFilePathsKey: string := "hostingStartupAssemblyFilePaths"

  // bool.TrueString and bool.FalseString.
  const TrueString: string := "True"
  const FalseString: string := "False"

  // ---------------------------------------------------------------------
  // Boolean-like values

  /** ParseBooleanLikeValue: null or empty gives no answer; "true" and
      "false" in any case give their value; an integer 0 or 1 gives false or
      true; anything else gives no answer. */
  function ParseBooleanLikeValue(value: Option<string>): (r: Option<bool>)
    ensures value.None? || value.value == [] ==> r.None?
    ensures value.Some? && value.value != [] && EqualsIgnoreCase(value.value, TrueString) ==> r == Some(true)
    ensures value.Some? && EqualsIgnoreCase(value.value, FalseString) ==> r == Some(false)
    ensures r == Some(true) ==> value.Some? && (EqualsIgnoreCase(value.value, TrueString) || TryParseInt32(value.value) == Some(1))
    ensures r == Some(false) ==> value.Some? && (EqualsIgnoreCase(value.value, FalseString) || TryParseInt32(value.value) == Some(0))
    ensures value.Some? && !EqualsIgnoreCase(value.value, TrueString) && !EqualsIgnoreCase(value.value, FalseString) ==>
      r == (match TryParseInt32(value.value)
            case Some(0) => Some(false)
            case Some(1) => Some(true)
            case _ => None)
  {
    if value.None? || value.value == [] then None
    else if EqualsIgnoreCase(value.value, TrueString) then Some(true)
    else if EqualsIgnoreCase(value.value, FalseString) then Some(false)
    else match TryParseInt32(value.value)
      case Some(0) => Some(false)
      case Some(1) => Some(true)
      case _ => None
  }

  /** An integer written out reads back as false for 0, true for 1, and as
      no answer for any other int32. */
  lemma BooleanLikeIntegers(n: int)
    requires InInt32(n)
    ensures ParseBooleanLikeValue(Some(FormatInt(n)))
         == if n == 0 then Some(false) else if n == 1 then Some(true) else None
  {
    var s := FormatInt(n);
    FormatParseRoundTrip(n);
    assert |s| >= 1 && (s[0] == '-' || IsDigit(s[0]));
    assert ToUpper(s)[0] == s[0];
    assert ToUpper(TrueString)[0] == 'T' && ToUpper(FalseString)[0] == 'F';
    assert !EqualsIgnoreCase(s, TrueString) && !EqualsIgnoreCase(s, FalseString);
  }

  // ---------------------------------------------------------------------
  // Semicolon-separated lists

  /** The entries of a split after trimming, empty ones removed. */
  function TrimAndDropEmpty(pieces: seq<string>): seq<string>
  {
    if pieces == [] then []
    else
      var t := Trim(pieces[0]);
      (if t == [] then [] else [t]) + TrimAndDropEmpty(pieces[1..])
  }

  /** Every entry is non-empty and trimmed. */
  predicate AllClean(xs: seq<string>)
  {
    forall i :: 0 <= i < |xs| ==> xs[i] != [] && IsTrimmed(xs[i])
  }

  lemma CleanCons(t: string, rest: seq<string>)
    requires t != [] && IsTrimmed(t) && AllClean(rest)
    ensures AllClean([t] + rest)
  {
    var r := [t] + rest;
    forall i | 0 < i < |r|
      ensures r[i] != [] && IsTrimmed(r[i])
    {
      assert r[i] == rest[i - 1];
    }
  }

  /** What TrimAndDropEmpty keeps: no more entries than there were
    * pieces, each non-empty and trimmed. */
  lemma {:induction false} TrimAndDropEmptyShape(pieces: seq<string>)
    ensures |TrimAndDropEmpty(pieces)| <= |pieces|
    ensures AllClean(TrimAndDropEmpty(pieces))
  {
    if pieces != [] {
      TrimAndDropEmptyShape(pieces[1..]);
      var t := Trim(pieces[0]);
      var rest := TrimAndDropEmpty(pieces[1..]);
      if t == [] {
        assert TrimAndDropEmpty(pieces) == [] + rest;
      } else {
        assert TrimAndDropEmpty(pieces) == [t] + rest;
        CleanCons(t, rest);
      }
    }
  }

  /** Trimming adds no characters: a character no piece holds is in no
    * entry TrimAndDropEmpty keeps. */
  lemma {:induction false} TrimAndDropEmptyWithout(pieces: seq<string>, c: char)
    requires forall j :: 0 <= j < |pieces| ==> c !in pieces[j]
    ensures forall i :: 0 <= i < |TrimAndDropEmpty(pieces)| ==> c !in TrimAndDropEmpty(pieces)[i]
  {
    if pieces != [] {
      TrimAndDropEmptyWithout(pieces[1..], c);
      var t := Trim(pieces[0]);
      var rest := TrimAndDropEmpty(pieces[1..]);
      assert c !in t;
      if t != [] {
        assert TrimAndDropEmpty(pieces) == [t] + rest;
      }
    }
  }

  /** ParseSemicolonSeparatedList: null gives an empty list; otherwise the
      text is split on ';', entries are trimmed and empty ones dropped. */
  function ParseSemicolonSeparatedList(value: Option<string>): (r: seq<string>)
    ensures value.None? ==> r == []
    ensures forall i :: 0 <= i < |r| ==> r[i] != [] && IsTrimmed(r[i]) && ';' !in r[i]
  {
    if value.None? then []
    else
      var pieces := SplitOn(value.value, ';');
      var r := TrimAndDropEmpty(pieces);
      TrimAndDropEmptyShape(pieces);
      TrimAndDropEmptyWithout(pieces, ';');
      r
  }

  /** Entries that are already clean come back as they were written. */
  lemma {:induction false} TrimAndDropEmptyOfClean(xs: seq<string>)
    requires forall i :: 0 <= i < |xs| ==> xs[i] != [] && IsTrimmed(xs[i])
    ensures TrimAndDropEmpty(xs) == xs
  {
    if xs != [] {
      TrimOfTrimmed(xs[0]);
      TrimAndDropEmptyOfClean(xs[1..]);
    }
  }

  /** Joining clean entries with ';' and parsing gives them back. */
  lemma SemicolonListRoundTrip(xs: seq<string>)
    requires forall i :: 0 <= i < |xs| ==> xs[i] != [] && IsTrimmed(xs[i]) && ';' !in xs[i]
    ensures ParseSemicolonSeparatedList(Some(JoinWith(xs, ';'))) == xs
  {
    if xs == [] {
      assert SplitOn([], ';') == [[]];
      assert Trim([]) == [];
    } else {
      SplitJoinRoundTrip(xs, ';');
      TrimAndDropEmptyOfClean(xs);
    }
  }

  // ---------------------------------------------------------------------
  // De-duplication ignoring case

  /** The values of `xs` are pairwise different ignoring case. */
  predicate DistinctIgnoringCase(xs: seq<string>)
  {
    forall i, j :: 0 <= i < j < |xs| ==> ToUpper(xs[i]) != ToUpper(xs[j])
  }

  /** The values of `xs`, compared ignoring case. */
  function CaseKeys(xs: seq<string>): set<string>
  {
    set i | 0 <= i < |xs| :: ToUpper(xs[i])
  }

  /** `Distinct(StringComparer.OrdinalIgnoreCase)`, and the contents of a
      HashSet with that comparer filled in order: the first spelling of
      every value, in order of first appearance. Nothing is lost, nothing
      is repeated, nothing is made up. */
  function DistinctIgnoreCase(xs: seq<string>): (r: seq<string>)
    ensures DistinctIgnoringCase(r)
    ensures forall k :: 0 <= k < |r| ==> r[k] in xs
    ensures CaseKeys(r) == CaseKeys(xs)
  {
    if xs == [] then []
    else
      var init := xs[..|xs| - 1];
      var x := xs[|xs| - 1];
      var d := DistinctIgnoreCase(init);
      assert CaseKeys(xs) == CaseKeys(init) + {ToUpper(x)} by {
        assert forall i :: 0 <= i < |xs| - 1 ==> xs[i] == init[i];
      }
      if ToUpper(x) in CaseKeys(d) then d
      else
        var r := d + [x];
        assert CaseKeys(r) == CaseKeys(d) + {ToUpper(x)} by {
          assert forall i :: 0 <= i < |d| ==> r[i] == d[i];
          assert r[|d|] == x;
        }
        r
  }

  /** The first spelling of every value is the one that is kept. */
  lemma {:induction false} DistinctKeepsFirstSpelling(xs: seq<string>, i: nat)
    requires i < |xs|
    requires forall k :: 0 <= k < i ==> ToUpper(xs[k]) != ToUpper(xs[i])
    ensures xs[i] in DistinctIgnoreCase(xs)
  {
    var init := xs[..|xs| - 1];
    var d := DistinctIgnoreCase(init);
    if i < |xs| - 1 {
      assert init[i] == xs[i];
      assert forall k :: 0 <= k < i ==> init[k] == xs[k];
      DistinctKeepsFirstSpelling(init, i);
    } else {
      assert ToUpper(xs[i]) !in CaseKeys(init) by {
        assert forall k :: 0 <= k < |init| ==> init[k] == xs[k];
      }
      assert DistinctIgnoreCase(xs) == d + [xs[i]];
    }
  }

  // ---------------------------------------------------------------------
  // The configuration callback

  /** What the callback asks for, in order: an assembly loaded by name or
      from a file path, each through a load context that knows the excluded
      assembly names. */
  datatype LoadStep =
    | LoadByName(assemblyName: string, excluded: seq<string>)
    | LoadFromPath(filePath: string, excluded: seq<string>)

  /** The configured value of a key, as the dynamic configuration reads it. */
  type ConfigLookup = string -> Option<string>

  /** `excluded.Any(GetMatcherFunc(assemblyName))`. */
  predicate Excluded(excluded: seq<string>, assemblyName: string, matches: (string, string) -> bool)
  {
    exists e :: e in excluded && matches(e, assemblyName)
  }

  /** The file paths whose assembly does not match an excluded name
      (`AssemblyName.ReferenceMatchesDefinition(excluded, fileAssembly)`),
      as load steps. */
  function PathSteps(paths: seq<string>, excluded: seq<string>,
                     assemblyNameOf: string -> string, matches: (string, string) -> bool): seq<LoadStep>
  {
    if paths == [] then []
    else
      var p := paths[0];
      var skip := Excluded(excluded, assemblyNameOf(p), matches);
      (if skip then [] else [LoadFromPath(p, excluded)])
      + PathSteps(paths[1..], excluded, assemblyNameOf, matches)
  }

  /** A load-from-path step with the exclude list whose assembly no
      excluded name matches. */
  predicate PathStepOk(step: LoadStep, excluded: seq<string>,
                       assemblyNameOf: string -> string, matches: (string, string) -> bool)
  {
    && step.LoadFromPath? && step.excluded == excluded
    && !Excluded(excluded, assemblyNameOf(step.filePath), matches)
  }

  /** Every path step loads from a file whose assembly no excluded name
      matches, and hands on the exclude list. */
  lemma {:induction false} PathStepsShape(paths: seq<string>, excluded: seq<string>,
                                          assemblyNameOf: string -> string, matches: (string, string) -> bool)
    ensures forall k :: 0 <= k < |PathSteps(paths, excluded, assemblyNameOf, matches)| ==>
      PathStepOk(PathSteps(paths, excluded, assemblyNameOf, matches)[k], excluded, assemblyNameOf, matches)
  {
    if paths != [] {
      PathStepsShape(paths[1..], excluded, assemblyNameOf, matches);
      var p := paths[0];
      var head := if Excluded(excluded, assemblyNameOf(p), matches) then [] else [LoadFromPath(p, excluded)];
      var rest := PathSteps(paths[1..], excluded, assemblyNameOf, matches);
      var steps := head + rest;
      assert steps == PathSteps(paths, excluded, assemblyNameOf, matches);
      forall k | 0 <= k < |steps|
        ensures PathStepOk(steps[k], excluded, assemblyNameOf, matches)
      {
        if k < |head| {
          assert steps[k] == LoadFromPath(p, excluded);
        } else {
          assert steps[k] == rest[k - |head|];
          assert PathStepOk(rest[k - |head|], excluded, assemblyNameOf, matches);
        }
      }
    }
  }

  /** PathSteps over a suffix: the step for its first path, unless that
      one is excluded, then the steps for the rest. */
  lemma PathStepsStep(paths: seq<string>, j: nat, excluded: seq<string>,
                      assemblyNameOf: string -> string, matches: (string, string) -> bool)
    requires j < |paths|
    ensures PathSteps(paths[j..], excluded, assemblyNameOf, matches)
      == (if Excluded(excluded, assemblyNameOf(paths[j]), matches) then [] else [LoadFromPath(paths[j], excluded)])
        + PathSteps(paths[j + 1..], excluded, assemblyNameOf, matches)
  {
    assert paths[j..][1..] == paths[j + 1..];
  }

  /** The positions of the file paths PathSteps keeps. */
  ghost function KeptIndices(paths: seq<string>, excluded: seq<string>,
                             assemblyNameOf: string -> string, matches: (string, string) -> bool): seq<nat>
    decreases |paths|
  {
    if paths == [] then []
    else
      var rest := Shift(KeptIndices(paths[1..], excluded, assemblyNameOf, matches));
      if Excluded(excluded, assemblyNameOf(paths[0]), matches) then rest else [0] + rest
  }

  /** Every index one further on. */
  ghost function Shift(xs: seq<nat>): (r: seq<nat>)
    ensures |r| == |xs| && forall k :: 0 <= k < |xs| ==> r[k] == xs[k] + 1
  {
    seq(|xs|, k requires 0 <= k < |xs| => xs[k] + 1)
  }

  lemma {:induction false} KeptIndicesSteps(paths: seq<string>, excluded: seq<string>,
                                            assemblyNameOf: string -> string, matches: (string, string) -> bool)
    ensures var idx := KeptIndices(paths, excluded, assemblyNameOf, matches);
      var steps := PathSteps(paths, excluded, assemblyNameOf, matches);
      && |idx| == |steps|
      && (forall k :: 0 <= k < |idx| ==> idx[k] < |paths| && steps[k] == LoadFromPath(paths[idx[k]], excluded))
    decreases |paths|
  {
    if paths != [] {
      KeptIndicesSteps(paths[1..], excluded, assemblyNameOf, matches);
      var inner := KeptIndices(paths[1..], excluded, assemblyNameOf, matches);
      var rest := Shift(inner);
      var tail := PathSteps(paths[1..], excluded, assemblyNameOf, matches);
      var steps := PathSteps(paths, excluded, assemblyNameOf, matches);
      var idx := KeptIndices(paths, excluded, assemblyNameOf, matches);
      if Excluded(excluded, assemblyNameOf(paths[0]), matches) {
        assert steps == [] + tail && idx == rest;
        forall k | 0 <= k < |idx|
          ensures idx[k] < |paths| && steps[k] == LoadFromPath(paths[idx[k]], excluded)
        {
          assert paths[idx[k]] == paths[1..][inner[k]];
        }
      } else {
        assert steps == [LoadFromPath(paths[0], excluded)] + tail && idx == [0] + rest;
        forall k | 0 < k < |idx|
          ensures idx[k] < |paths| && steps[k] == LoadFromPath(paths[idx[k]], excluded)
        {
          assert idx[k] == rest[k - 1] && steps[k] == tail[k - 1];
          assert paths[idx[k]] == paths[1..][inner[k - 1]];
        }
      }
    }
  }

  /** Strictly increasing. */
  ghost predicate Increasing(xs: seq<nat>)
  {
    forall k, l :: 0 <= k < l < |xs| ==> xs[k] < xs[l]
  }

  lemma {:induction false} KeptIndicesIncrease(paths: seq<string>, excluded: seq<string>,
                                               assemblyNameOf: string -> string, matches: (string, string) -> bool)
    ensures Increasing(KeptIndices(paths, excluded, assemblyNameOf, matches))
    decreases |paths|
  {
    if paths != [] {
      KeptIndicesIncrease(paths[1..], excluded, assemblyNameOf, matches);
      var inner := KeptIndices(paths[1..], excluded, assemblyNameOf, matches);
      var rest := Shift(inner);
      var idx := KeptIndices(paths, excluded, assemblyNameOf, matches);
      if Excluded(excluded, assemblyNameOf(paths[0]), matches) {
        assert idx == rest;
        forall k, l | 0 <= k < l < |idx|
          ensures idx[k] < idx[l]
        {
          assert inner[k] < inner[l];
        }
      } else {
        assert idx == [0] + rest;
        forall k, l | 0 <= k < l < |idx|
          ensures idx[k] < idx[l]
        {
          assert idx[l] == rest[l - 1] == inner[l - 1] + 1;
          if k > 0 {
            assert idx[k] == rest[k - 1] == inner[k - 1] + 1;
            assert inner[k - 1] < inner[l - 1];
          }
        }
      }
    }
  }

  lemma {:induction false} KeptIndicesMembership(paths: seq<string>, excluded: seq<string>,
                                                 assemblyNameOf: string -> string, matches: (string, string) -> bool)
    ensures var idx := KeptIndices(paths, excluded, assemblyNameOf, matches);
      forall i :: 0 <= i < |paths| ==> (i in idx <==> !Excluded(excluded, assemblyNameOf(paths[i]), matches))
    decreases |paths|
  {
    if paths != [] {
      KeptIndicesMembership(paths[1..], excluded, assemblyNameOf, matches);
      var inner := KeptIndices(paths[1..], excluded, assemblyNameOf, matches);
      var rest := Shift(inner);
      var idx := KeptIndices(paths, excluded, assemblyNameOf, matches);
      assert 0 !in rest;
      forall i | 0 < i < |paths|
        ensures i in idx <==> !Excluded(excluded, assemblyNameOf(paths[i]), matches)
      {
        assert paths[i] == paths[1..][i - 1];
        ShiftMembership(inner, i);
      }
    }
  }

  lemma ShiftMembership(xs: seq<nat>, i: nat)
    requires i > 0
    ensures i in Shift(xs) <==> i - 1 in xs
  {
    var shifted := Shift(xs);
    if i in shifted {
      var k :| 0 <= k < |shifted| && shifted[k] == i;
      assert xs[k] == i - 1;
    }
    if i - 1 in xs {
      var k :| 0 <= k < |xs| && xs[k] == i - 1;
      assert shifted[k] == i;
    }
  }

  /** The path steps are the kept file paths in their configured order:
      step k loads path idx[k], the indices increase, and a path's index
      is among them exactly when no excluded name matches its assembly. */
  lemma PathStepsKeepOrder(paths: seq<string>, excluded: seq<string>,
                           assemblyNameOf: string -> string, matches: (string, string) -> bool)
    returns (idx: seq<nat>)
    ensures var steps := PathSteps(paths, excluded, assemblyNameOf, matches);
      && |idx| == |steps|
      && (forall k :: 0 <= k < |idx| ==> idx[k] < |paths| && steps[k] == LoadFromPath(paths[idx[k]], excluded))
    ensures forall k, l :: 0 <= k < l < |idx| ==> idx[k] < idx[l]
    ensures forall i :: 0 <= i < |paths| ==> (i in idx <==> !Excluded(excluded, assemblyNameOf(paths[i]), matches))
  {
    idx := KeptIndices(paths, excluded, assemblyNameOf, matches);
    KeptIndicesSteps(paths, excluded, assemblyNameOf, matches);
    KeptIndicesIncrease(paths, excluded, assemblyNameOf, matches);
    KeptIndicesMembership(paths, excluded, assemblyNameOf, matches);
  }

  /** A file path is loaded, with the exclude list, exactly when it is
      configured and no excluded name matches its assembly. */
  lemma PathStepsMembership(paths: seq<string>, excluded: seq<string>,
                            assemblyNameOf: string -> string, matches: (string, string) -> bool, p: string)
    ensures LoadFromPath(p, excluded) in PathSteps(paths, excluded, assemblyNameOf, matches)
            <==> p in paths && !Excluded(excluded, assemblyNameOf(p), matches)
  {
    var steps := PathSteps(paths, excluded, assemblyNameOf, matches);
    var idx := PathStepsKeepOrder(paths, excluded, assemblyNameOf, matches);
    if LoadFromPath(p, excluded) in steps {
      var k :| 0 <= k < |steps| && steps[k] == LoadFromPath(p, excluded);
      assert idx[k] in idx;
    }
    if p in paths && !Excluded(excluded, assemblyNameOf(p), matches) {
      var i :| 0 <= i < |paths| && paths[i] == p;
      assert i in idx;
      var k :| 0 <= k < |idx| && idx[k] == i;
      assert steps[k] == LoadFromPath(p, excluded);
    }
  }

  /** One load-by-name step per name, in order. */
  function NameSteps(names: seq<string>, excluded: seq<string>): (steps: seq<LoadStep>)
  {
    seq(|names|, k requires 0 <= k < |names| => LoadByName(names[k], excluded))
  }

  /** The names of the load-by-name steps, in order. */
  function LoadedNames(steps: seq<LoadStep>): seq<string>
  {
    if steps == [] then []
    else (if steps[0].LoadByName? then [steps[0].assemblyName] else []) + LoadedNames(steps[1..])
  }

  lemma {:induction false} LoadedNamesAppend(a: seq<LoadStep>, b: seq<LoadStep>)
    ensures LoadedNames(a + b) == LoadedNames(a) + LoadedNames(b)
  {
    if a == [] {
      assert a + b == b;
    } else {
      var ab := a + b;
      assert ab[0] == a[0] && ab[1..] == a[1..] + b;
      LoadedNamesAppend(a[1..], b);
    }
  }

  lemma {:induction false} LoadedNamesOfNameSteps(names: seq<string>, excluded: seq<string>)
    ensures LoadedNames(NameSteps(names, excluded)) == names
  {
    if names != [] {
      assert NameSteps(names, excluded)[1..] == NameSteps(names[1..], excluded);
      LoadedNamesOfNameSteps(names[1..], excluded);
    }
  }

  lemma {:induction false} LoadedNamesOfPathSteps(paths: seq<string>, excluded: seq<string>,
                                                  assemblyNameOf: string -> string,
                                                  matches: (string, string) -> bool)
    ensures LoadedNames(PathSteps(paths, excluded, assemblyNameOf, matches)) == []
  {
    if paths != [] {
      var p := paths[0];
      var head: seq<LoadStep> := if Excluded(excluded, assemblyNameOf(p), matches) then [] else [LoadFromPath(p, excluded)];
      var tail := PathSteps(paths[1..], excluded, assemblyNameOf, matches);
      LoadedNamesAppend(head, tail);
      LoadedNamesOfPathSteps(paths[1..], excluded, assemblyNameOf, matches);
    }
  }

  /** The load-by-name steps followed by load-from-path steps that are not
      excluded. */
  lemma PlanConcat(names: seq<string>, excluded: seq<string>, byPath: seq<LoadStep>,
                   assemblyNameOf: string -> string, matches: (string, string) -> bool)
    requires LoadedNames(byPath) == []
    requires forall k :: 0 <= k < |byPath| ==>
      byPath[k].LoadFromPath? && byPath[k].excluded == excluded && !Excluded(excluded, assemblyNameOf(byPath[k].filePath), matches)
    ensures var steps := NameSteps(names, excluded) + byPath;
      && LoadedNames(steps) == names
      && (forall k :: 0 <= k < |steps| ==> steps[k].excluded == excluded)
      && (forall k :: 0 <= k < |steps| && steps[k].LoadFromPath? ==>
            !Excluded(excluded, assemblyNameOf(steps[k].filePath), matches))
  {
    var byName := NameSteps(names, excluded);
    LoadedNamesAppend(byName, byPath);
    LoadedNamesOfNameSteps(names, excluded);
    var steps := byName + byPath;
    forall k | 0 <= k < |steps|
      ensures steps[k].excluded == excluded
      ensures steps[k].LoadFromPath? ==> !Excluded(excluded, assemblyNameOf(steps[k].filePath), matches)
    {
      if k >= |byName| { assert steps[k] == byPath[k - |byName|]; }
    }
  }

  /** In the plan, the load-by-name steps come first, and a file path is
      loaded exactly when it is among the paths and not excluded. */
  lemma PlanPathSteps(names: seq<string>, paths: seq<string>, excluded: seq<string>,
                      assemblyNameOf: string -> string, matches: (string, string) -> bool)
    ensures var steps := NameSteps(names, excluded) + PathSteps(paths, excluded, assemblyNameOf, matches);
      && (forall i, j :: 0 <= i < j < |steps| && steps[i].LoadFromPath? ==> steps[j].LoadFromPath?)
      && (forall p :: LoadFromPath(p, excluded) in steps <==> p in paths && !Excluded(excluded, assemblyNameOf(p), matches))
  {
    var byName := NameSteps(names, excluded);
    var byPath := PathSteps(paths, excluded, assemblyNameOf, matches);
    var steps := byName + byPath;
    PathStepsShape(paths, excluded, assemblyNameOf, matches);
    forall i, j | 0 <= i < j < |steps| && steps[i].LoadFromPath?
      ensures steps[j].LoadFromPath?
    {
      assert i >= |byName|;
      assert steps[j] == byPath[j - |byName|];
    }
    forall p
      ensures LoadFromPath(p, excluded) in steps <==> p in paths && !Excluded(excluded, assemblyNameOf(p), matches)
    {
      PathStepsMembership(paths, excluded, assemblyNameOf, matches, p);
      assert LoadFromPath(p, excluded) !in byName;
    }
  }

  /** The callback's decision: nothing when preventHostingStartup reads
      as true; otherwise every configured assembly name exactly once
      (ignoring case), then the file paths whose assembly no excluded name
      matches; every load context gets the de-duplicated exclude list. */
  function LoadPlan(config: ConfigLookup, assemblyNameOf: string -> string,
                    matches: (string, string) -> bool): (steps: seq<LoadStep>)
    ensures ParseBooleanLikeValue(config(PreventHostingStartupKey)) == Some(true) ==> steps == []
    ensures ParseBooleanLikeValue(config(PreventHostingStartupKey)) != Some(true) ==>
      var excluded := DistinctIgnoreCase(ParseSemicolonSeparatedList(config(HostingStartupExcludeAssembliesKey)));
      && CaseKeys(LoadedNames(steps)) == CaseKeys(ParseSemicolonSeparatedList(config(HostingStartupAssembliesKey)))
      && DistinctIgnoringCase(LoadedNames(steps))
      && (forall k :: 0 <= k < |steps| ==> steps[k].excluded == excluded)
      && (forall k :: 0 <= k < |steps| && steps[k].LoadFromPath? ==>
            !Excluded(excluded, assemblyNameOf(steps[k].filePath), matches))
      && (forall i, j :: 0 <= i < j < |steps| && steps[i].LoadFromPath? ==> steps[j].LoadFromPath?)
      && (forall p :: LoadFromPath(p, excluded) in steps <==>
            p in DistinctIgnoreCase(ParseSemicolonSeparatedList(config(HostingStartupAssemblyFilePathsKey)))
            && !Excluded(excluded, assemblyNameOf(p), matches))
  {
    if ParseBooleanLikeValue(config(PreventHostingStartupKey)) == Some(true) then []
    else
      var excluded := DistinctIgnoreCase(ParseSemicolonSeparatedList(config(HostingStartupExcludeAssembliesKey)));
      var names := DistinctIgnoreCase(ParseSemicolonSeparatedList(config(HostingStartupAssembliesKey)));
      var paths := DistinctIgnoreCase(ParseSemicolonSeparatedList(config(HostingStartupAssemblyFilePathsKey)));
      var byName := NameSteps(names, excluded);
      var byPath := PathSteps(paths, excluded, assemblyNameOf, matches);
      LoadedNamesOfPathSteps(paths, excluded, assemblyNameOf, matches);
      PathStepsShape(paths, excluded, assemblyNameOf, matches);
      PlanConcat(names, excluded, byPath, assemblyNameOf, matches);
      PlanPathSteps(names, paths, excluded, assemblyNameOf, matches);
      byName + byPath
  }

  /** The two `foreach` loops of the callback: load every name, then every
      file path whose assembly is not excluded. */
  method RunLoadLoops(names: seq<string>, paths: seq<string>, excluded: seq<string>,
                      assemblyNameOf: string -> string, matches: (string, string) -> bool)
    returns (steps: seq<LoadStep>)
    ensures steps == NameSteps(names, excluded) + PathSteps(paths, excluded, assemblyNameOf, matches)
  {
    var byName := LoadByNames(names, excluded);
    var byPath := LoadFromPaths(paths, excluded, assemblyNameOf, matches);
    steps := byName + byPath;
  }

  /** The first loop: one load-by-name step per name. */
  method LoadByNames(names: seq<string>, excluded: seq<string>) returns (steps: seq<LoadStep>)
    ensures steps == NameSteps(names, excluded)
  {
    steps := [];
    var i := 0;
    while i < |names|
      invariant 0 <= i <= |names|
      invariant steps == NameSteps(names[..i], excluded)
    {
      assert NameSteps(names[..i + 1], excluded) == NameSteps(names[..i], excluded) + [LoadByName(names[i], excluded)];
      steps := steps + [LoadByName(names[i], excluded)];
      i := i + 1;
    }
    assert names[..i] == names;
  }

  /** The second loop: a load-from-path step for each path whose assembly
      no excluded name matches. */
  method LoadFromPaths(paths: seq<string>, excluded: seq<string>,
                       assemblyNameOf: string -> string, matches: (string, string) -> bool)
    returns (steps: seq<LoadStep>)
    ensures steps == PathSteps(paths, excluded, assemblyNameOf, matches)
  {
    var j := 0;
    steps := [];
    while j < |paths|
      invariant 0 <= j <= |paths|
      invariant steps + PathSteps(paths[j..], excluded, assemblyNameOf, matches)
                == PathSteps(paths, excluded, assemblyNameOf, matches)
    {
      var p := paths[j];
      var skip := Excluded(excluded, assemblyNameOf(p), matches);
      var step: seq<LoadStep> := if skip then [] else [LoadFromPath(p, excluded)];
      PathStepsStep(paths, j, excluded, assemblyNameOf, matches);
      SeqAssoc(steps, step, PathSteps(paths[j + 1..], excluded, assemblyNameOf, matches));
      steps := steps + step;
      j := j + 1;
    }
    assert paths[j..] == [];
  }

  lemma SeqAssoc(a: seq<LoadStep>, b: seq<LoadStep>, c: seq<LoadStep>)
    ensures a + (b + c) == (a + b) + c
  {
  }

  /** UseHostingStartupAssemblyLoading: a null builder is refused before
      the callback is registered; the callback stops when
      preventHostingStartup reads as true, and otherwise runs its loops
      over the de-duplicated lists. */
  method UseHostingStartupAssemblyLoading<B>(hostBuilder: Option<B>, config: ConfigLookup,
                                             assemblyNameOf: string -> string,
                                             matches: (string, string) -> bool)
    returns (r: Result<seq<LoadStep>>)
    ensures hostBuilder.None? ==> r == Err(ArgumentNull)
    ensures hostBuilder.Some? ==> r == Ok(LoadPlan(config, assemblyNameOf, matches))
  {
    if hostBuilder.None? {
      return Err(ArgumentNull);
    }
    if ParseBooleanLikeValue(config(PreventHostingStartupKey)) == Some(true) {
      return Ok([]);
    }
    var excluded := DistinctIgnoreCase(ParseSemicolonSeparatedList(config(HostingStartupExcludeAssembliesKey)));
    var names := DistinctIgnoreCase(ParseSemicolonSeparatedList(config(HostingStartupAssembliesKey)));
    var paths := DistinctIgnoreCase(ParseSemicolonSeparatedList(config(HostingStartupAssemblyFilePathsKey)));
    var steps := RunLoadLoops(names, paths, excluded, assemblyNameOf, matches);
    r := Ok(steps);
  }
}
