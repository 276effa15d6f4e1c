/** The command-line hosting bridge: the synchronous part of
    `InvokeAsync` in the two command-line actions (HostCommandLineAction and
    its older twin HostingCommandLineAction), the parsing of the
    host-configuration directive, and the rule that turns the results of the
    hosted invocations into the process exit code. */
module CommandLineHosting {
  import opened Common

  // ---------------------------------------------------------------------
  // Configuration directive tokens

  /** KeyValuePair<string, string?>; a missing value is `None`. */
  datatype KeyValue = KeyValue(key: string, value: Option<string>)

  /** Splits a directive token at its first '=' and trims both sides; a
      token without '=' is all key and has no value. */
  function GetKeyValuePair(token: string): (kv: KeyValue)
    ensures kv.value.None? <==> '=' !in token
    ensures IsTrimmed(kv.key) && (kv.value.Some? ==> IsTrimmed(kv.value.value))
    ensures kv.value.Some? ==> '=' !in kv.key
    ensures kv.value.None? ==> kv.key == Trim(token)
  {
    var eq := IndexOfChar(token, '=');
    if eq < 0 then KeyValue(Trim(token), None)
    else KeyValue(Trim(token[..eq]), Some(Trim(token[eq + 1..])))
  }

  /** The token that writes a pair back out: `key` or `key=value`. */
  function FormatKeyValue(kv: KeyValue): string
  {
    match kv.value
    case None => kv.key
    case Some(v) => kv.key + "=" + v
  }

  /** A key with no '=' and trimmed key and value survive a round trip
      through the directive syntax. */
  lemma GetKeyValuePairRoundTrip(kv: KeyValue)
    requires '=' !in kv.key && IsTrimmed(kv.key)
    requires kv.value.Some? ==> IsTrimmed(kv.value.value)
    ensures GetKeyValuePair(FormatKeyValue(kv)) == kv
  {
    TrimOfTrimmed(kv.key);
    if kv.value.Some? {
      var v := kv.value.value;
      var t := kv.key + "=" + v;
      IndexOfCharAfter(kv.key, '=', v);
      assert t == kv.key + ['='] + v;
      assert t[..|kv.key|] == kv.key;
      assert t[|kv.key| + 1..] == v;
      TrimOfTrimmed(v);
    }
  }

  /** Only the first '=' separates: whatever follows it, further '='
      included, is the value, and both sides are trimmed. */
  lemma GetKeyValuePairFirstEquals(k: string, v: string)
    requires '=' !in k
    ensures GetKeyValuePair(k + "=" + v) == KeyValue(Trim(k), Some(Trim(v)))
  {
    var t := k + "=" + v;
    IndexOfCharAfter(k, '=', v);
    assert t == k + ['='] + v;
    assert t[..|k|] == k;
    assert t[|k| + 1..] == v;
  }

  /** `configResult.Values.Select(GetKeyValuePair)`, in token order. */
  function DirectivePairs(values: seq<string>): (pairs: seq<KeyValue>)
    ensures |pairs| == |values|
    ensures forall i :: 0 <= i < |values| ==> pairs[i] == GetKeyValuePair(values[i])
  {
    if values == [] then [] else [GetKeyValuePair(values[0])] + DirectivePairs(values[1..])
  }

  /** `Directives.FirstOrDefault(d => d.Name equals name ignoring case)`, as
      a position in the root command's directive list, or -1. */
  function FirstMatchingDirective(directives: seq<string>, name: string): (r: int)
    ensures -1 <= r < |directives|
    ensures r >= 0 ==> EqualsIgnoreCase(directives[r], name)
    ensures r >= 0 ==> forall j :: 0 <= j < r ==> !EqualsIgnoreCase(directives[j], name)
    ensures r == -1 <==> forall j :: 0 <= j < |directives| ==> !EqualsIgnoreCase(directives[j], name)
  {
    if directives == [] then -1
    else if EqualsIgnoreCase(directives[0], name) then 0
    else
      var k := FirstMatchingDirective(directives[1..], name);
      if k < 0 then -1 else k + 1
  }

  // ---------------------------------------------------------------------
  // The parse result and the host builder

  /** The parser configuration; InvokeAsync updates its termination timeout. */
  class CommandLineConfiguration {
    /** ProcessTerminationTimeout (a TimeSpan?, here in milliseconds). */
    var processTerminationTimeout: Option<int>
    /** The directive names of the root command, or `None` when the root
        command is not a RootCommand. */
    const rootDirectives: Option<seq<string>>

    constructor (timeout: Option<int>, directives: Option<seq<string>>)
      ensures processTerminationTimeout == timeout && rootDirectives == directives
    {
      processTerminationTimeout := timeout;
      rootDirectives := directives;
    }
  }

  /** What InvokeAsync reads from a ParseResult. `directiveValues` maps the
      position of a directive in the root command's list to the values of
      its DirectiveResult; a directive without a result is absent. */
  datatype ParseResult = ParseResult(
    configuration: CommandLineConfiguration,
    unmatchedTokens: Option<seq<string>>,
    directiveValues: map<nat, seq<string>>)

  /** A service registration made by the services callback. */
  datatype Registration =
    | ParseResultSingleton
    | ConfigurationSingleton
    | InvocationSingleton
    | HostedCommandLineService
    | SymbolServices(callback: nat)   // one ConfigureSymbolServices callback

  /** What InvokeAsync does to the host builder, in order. */
  datatype BuilderStep =
    | InMemoryConfiguration(pairs: seq<KeyValue>)
    | HostServices(registrations: seq<Registration>)
    | ConfigureBuilderCallback

  class HostBuilder {
    /** The arguments the builder factory received. */
    const args: seq<string>
    var steps: seq<BuilderStep>

    constructor (args: seq<string>)
      ensures this.args == args && steps == []
    {
      this.args := args;
      steps := [];
    }

    method Apply(step: BuilderStep)
      modifies this
      ensures steps == old(steps) + [step]
    {
      steps := steps + [step];
    }
  }

  /** The two actions: HostCommandLineAction (newer) clears the process
      termination timeout, HostingCommandLineAction (older) leaves it. */
  datatype ActionVariant = HostAction | HostingAction

  /** `parseResult.UnmatchedTokens?.ToArray() ?? []` */
  function BuilderArgs(p: ParseResult): (args: seq<string>)
    ensures p.unmatchedTokens.None? ==> args == []
    ensures p.unmatchedTokens.Some? ==> args == p.unmatchedTokens.value
  {
    if p.unmatchedTokens.Some? then p.unmatchedTokens.value else []
  }

  /** The overlay the configuration directive contributes, if any: the
      first directive of the root command whose name matches, provided the
      parse result holds a result for that very directive. */
  function DirectiveOverlay(p: ParseResult, directiveName: string): Option<seq<KeyValue>>
  {
    match p.configuration.rootDirectives
    case None => None
    case Some(ds) =>
      var k := FirstMatchingDirective(ds, directiveName);
      if k >= 0 && k in p.directiveValues then Some(DirectivePairs(p.directiveValues[k]))
      else None
  }

  /** The registrations of the services callback, in order. */
  function ServiceRegistrations(symbolServices: seq<nat>): (regs: seq<Registration>)
    ensures |regs| == 4 + |symbolServices|
    ensures regs[..4] == [ParseResultSingleton, ConfigurationSingleton, InvocationSingleton, HostedCommandLineService]
    ensures forall i :: 0 <= i < |symbolServices| ==> regs[4 + i] == SymbolServices(symbolServices[i])
  {
    [ParseResultSingleton, ConfigurationSingleton, InvocationSingleton, HostedCommandLineService]
      + seq(|symbolServices|, i requires 0 <= i < |symbolServices| => SymbolServices(symbolServices[i]))
  }

  /** Every step InvokeAsync applies to the builder before building the host. */
  function ExpectedSteps(p: ParseResult, directiveName: string, symbolServices: seq<nat>,
                         hasConfigureBuilder: bool): seq<BuilderStep>
  {
    (match DirectiveOverlay(p, directiveName)
     case None => []
     case Some(pairs) => [InMemoryConfiguration(pairs)])
    + [HostServices(ServiceRegistrations(symbolServices))]
    + (if hasConfigureBuilder then [ConfigureBuilderCallback] else [])
  }

  /** The synchronous prefix of InvokeAsync, up to CreateHost: reject a
      null parse result, create the builder from the unmatched tokens, clear
      the termination timeout (newer action only), apply the directive
      overlay, register the services, run ConfigureBuilder. */
  method PrepareHostBuilder(variant: ActionVariant, directiveName: string,
                            parseResult: Option<ParseResult>,
                            symbolServices: seq<nat>, hasConfigureBuilder: bool)
    returns (r: Result<HostBuilder>)
    modifies if parseResult.Some? then {parseResult.value.configuration} else {}
    ensures parseResult.None? ==> r == Err(ArgumentNull)
    ensures parseResult.Some? ==> r.Ok? && fresh(r.value)
    ensures parseResult.Some? ==>
      var p := parseResult.value;
      && r.value.args == BuilderArgs(p)
      && r.value.steps == ExpectedSteps(p, directiveName, symbolServices, hasConfigureBuilder)
      && p.configuration.processTerminationTimeout
         == (if variant == HostAction then None else old(p.configuration.processTerminationTimeout))
  {
    if parseResult.None? {
      return Err(ArgumentNull);
    }
    var p := parseResult.value;
    var builder := new HostBuilder(BuilderArgs(p));
    if variant == HostAction {
      p.configuration.processTerminationTimeout := None;
    }
    var overlay := DirectiveOverlay(p, directiveName);
    if overlay.Some? {
      builder.Apply(InMemoryConfiguration(overlay.value));
    }
    ghost var overlaySteps := builder.steps;
    assert overlaySteps == match overlay case None => [] case Some(pairs) => [InMemoryConfiguration(pairs)];
    var services := HostServices(ServiceRegistrations(symbolServices));
    builder.Apply(services);
    ghost var tail := if hasConfigureBuilder then [ConfigureBuilderCallback] else [];
    if hasConfigureBuilder {
      builder.Apply(ConfigureBuilderCallback);
    }
    assert builder.steps == overlaySteps + [services] + tail;
    r := Ok(builder);
  }

  /** The builder steps keep a fixed order: at most one configuration
      overlay, then the services callback whose registrations start with the
      parse result, configuration, invocation and hosted service and end
      with the symbol callbacks, then ConfigureBuilder last. */
  lemma RegistrationOrder(p: ParseResult, directiveName: string, symbolServices: seq<nat>,
                          hasConfigureBuilder: bool)
    ensures
      var steps := ExpectedSteps(p, directiveName, symbolServices, hasConfigureBuilder);
      var o := if DirectiveOverlay(p, directiveName).Some? then 1 else 0;
      && |steps| == o + 1 + (if hasConfigureBuilder then 1 else 0)
      && (o == 1 ==> steps[0].InMemoryConfiguration?)
      && steps[o].HostServices?
      && steps[o].registrations[..4]
         == [ParseResultSingleton, ConfigurationSingleton, InvocationSingleton, HostedCommandLineService]
      && steps[o].registrations[4..] == seq(|symbolServices|, i requires 0 <= i < |symbolServices| => SymbolServices(symbolServices[i]))
      && (hasConfigureBuilder ==> steps[|steps| - 1] == ConfigureBuilderCallback)
  {
    var regs := ServiceRegistrations(symbolServices);
    assert regs[4..] == seq(|symbolServices|, i requires 0 <= i < |symbolServices| => SymbolServices(symbolServices[i]));
  }

  /** The overlay exists exactly when some root directive matches the name
      and the first match has a result; its pairs follow the tokens one for
      one. A result for a later directive with the same name is ignored. */
  lemma DirectiveOverlayChoice(p: ParseResult, directiveName: string)
    ensures DirectiveOverlay(p, directiveName).Some? <==>
      p.configuration.rootDirectives.Some? &&
      (var ds := p.configuration.rootDirectives.value;
       exists k :: 0 <= k < |ds| && EqualsIgnoreCase(ds[k], directiveName) && k in p.directiveValues
         && forall j :: 0 <= j < k ==> !EqualsIgnoreCase(ds[j], directiveName))
    ensures DirectiveOverlay(p, directiveName).Some? ==>
      var ds := p.configuration.rootDirectives.value;
      var k := FirstMatchingDirective(ds, directiveName);
      var pairs := DirectiveOverlay(p, directiveName).value;
      && |pairs| == |p.directiveValues[k]|
      && forall i :: 0 <= i < |pairs| ==> pairs[i] == GetKeyValuePair(p.directiveValues[k][i])
  {
    if p.configuration.rootDirectives.Some? {
      var ds := p.configuration.rootDirectives.value;
      var k := FirstMatchingDirective(ds, directiveName);
      if exists m :: 0 <= m < |ds| && EqualsIgnoreCase(ds[m], directiveName) && m in p.directiveValues
           && forall j :: 0 <= j < m ==> !EqualsIgnoreCase(ds[j], directiveName) {
        var m :| 0 <= m < |ds| && EqualsIgnoreCase(ds[m], directiveName) && m in p.directiveValues
           && forall j :: 0 <= j < m ==> !EqualsIgnoreCase(ds[j], directiveName);
        assert k == m;
      }
    }
  }

  // ---------------------------------------------------------------------
  // From invocation results to the exit code

  /** The final state of one hosted invocation's ExecuteTask. */
  datatype TaskOutcome = RanToCompletion(result: int) | Faulted | Canceled

  /** How GetInvocationExecutionResult ends: the exit code or the exception
      that escapes it, and whether the host was stopped. */
  datatype Execution = Execution(exitCode: Result<int>, hostStopped: bool)

  /** `FirstOrDefault(r => r != 0)`: the first non-zero value, or 0. */
  function FirstNonZero(results: seq<int>): (r: int)
    ensures r == 0 <==> forall i :: 0 <= i < |results| ==> results[i] == 0
    ensures r != 0 ==> exists i :: 0 <= i < |results| && results[i] == r
                        && forall j :: 0 <= j < i ==> results[j] == 0
  {
    if results == [] then 0
    else if results[0] != 0 then results[0]
    else
      var r := FirstNonZero(results[1..]);
      assert r != 0 ==> exists i :: 1 <= i < |results| && results[i] == r && forall j :: 0 <= j < i ==> results[j] == 0 by {
        if r != 0 {
          var i :| 0 <= i < |results[1..]| && results[1..][i] == r
                   && forall j :: 0 <= j < i ==> results[1..][j] == 0;
          assert results[i + 1] == r;
        }
      }
      r
  }

  /** The first non-zero value of a concatenation comes from the left part
      when it has one. */
  lemma {:induction false} FirstNonZeroAppend(a: seq<int>, b: seq<int>)
    ensures FirstNonZero(a + b) == if FirstNonZero(a) != 0 then FirstNonZero(a) else FirstNonZero(b)
  {
    if a != [] {
      assert (a + b)[0] == a[0];
      assert (a + b)[1..] == a[1..] + b;
      FirstNonZeroAppend(a[1..], b);
    } else {
      assert a + b == b;
    }
  }

  predicate Succeeded(t: TaskOutcome) { t.RanToCompletion? }

  /** The results of the successfully completed tasks, in task order. */
  function SuccessfulResults(tasks: seq<TaskOutcome>): (rs: seq<int>)
    ensures |rs| <= |tasks|
    ensures (forall i :: 0 <= i < |tasks| ==> Succeeded(tasks[i])) ==>
              |rs| == |tasks| && forall i :: 0 <= i < |tasks| ==> rs[i] == tasks[i].result
  {
    if tasks == [] then []
    else (if Succeeded(tasks[0]) then [tasks[0].result] else []) + SuccessfulResults(tasks[1..])
  }

  /** GetInvocationExecutionResult after `Task.WhenAll`: a faulted task
      makes the await throw its exception, otherwise a cancelled one throws
      TaskCanceledException; the exception leaves the try/finally before
      StopAsync. Without an exception the host is stopped and the exit code
      is the first non-zero successful result. */
  function InvocationExecutionResult(tasks: seq<TaskOutcome>): (e: Execution)
    ensures e.hostStopped <==> e.exitCode.Ok?
    ensures e.exitCode.Ok? <==> forall i :: 0 <= i < |tasks| ==> Succeeded(tasks[i])
    ensures e.exitCode == Err(TaskFaulted) <==> exists i :: 0 <= i < |tasks| && tasks[i].Faulted?
    ensures e.exitCode == Err(TaskCanceled) <==>
      (forall i :: 0 <= i < |tasks| ==> !tasks[i].Faulted?) && exists i :: 0 <= i < |tasks| && tasks[i].Canceled?
    ensures e.exitCode.Ok? ==>
      (e.exitCode.value == 0 <==> forall i :: 0 <= i < |tasks| ==> tasks[i].result == 0)
    ensures e.exitCode.Ok? && e.exitCode.value != 0 ==>
      exists i :: 0 <= i < |tasks| && tasks[i].result == e.exitCode.value
        && forall j :: 0 <= j < i ==> tasks[j].result == 0
  {
    if exists i :: 0 <= i < |tasks| && tasks[i].Faulted? then Execution(Err(TaskFaulted), false)
    else if exists i :: 0 <= i < |tasks| && tasks[i].Canceled? then Execution(Err(TaskCanceled), false)
    else
      var rs := SuccessfulResults(tasks);
      assert forall i :: 0 <= i < |tasks| ==> Succeeded(tasks[i]) by {
        forall i | 0 <= i < |tasks| ensures Succeeded(tasks[i]) {
          assert !tasks[i].Faulted? && !tasks[i].Canceled?;
        }
      }
      Execution(Ok(FirstNonZero(rs)), true)
  }
}
