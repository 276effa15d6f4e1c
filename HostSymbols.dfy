/** HostSymbolExtensions: binding command-line options to the options
    framework. Configuring an option adds a validator to it; when the
    validator runs during parsing it walks up the parse tree to the
    enclosing command result and, if that command runs a host, hands the host
    a callback that registers an options setup reading the parsed value. */
module HostSymbols {
  import opened Common
  import CommandLineHosting

  // ---------------------------------------------------------------------
  // Commands and their host actions

  /** Which kind of builder the host action drives. */
  datatype HostBuilderKind = GenericHostBuilder | ApplicationBuilder

  /** Configure (ConfigureNamedOptions) or PostConfigure (PostConfigureOptions). */
  datatype SetupMode = ConfigureMode | PostConfigureMode

  /** A setup the options framework receives from a symbol callback:
      the options name, the mode, and the user callback (by identity). */
  datatype SymbolRegistration = SymbolRegistration(optionsName: Option<string>, mode: SetupMode, callback: nat)

  /** A HostCommandLineAction; `configureSymbolServices` is its multicast
      ConfigureSymbolServices delegate, as the list of its callbacks. */
  class HostAction {
    const builderKind: HostBuilderKind
    var configureSymbolServices: seq<SymbolRegistration>

    constructor (kind: HostBuilderKind)
      ensures builderKind == kind && configureSymbolServices == []
    {
      builderKind := kind;
      configureSymbolServices := [];
    }
  }

  /** A Command; `action` is `None` when its action is not a HostCommandLineAction. */
  class Command {
    var action: Option<HostAction>

    constructor (action: Option<HostAction>)
      ensures this.action == action
    {
      this.action := action;
    }
  }

  /** The kinds of Symbol. Only arguments and options carry validators here. */
  datatype SymbolKind = ArgumentSymbol | OptionSymbol | CommandSymbol | DirectiveSymbol

  /** A symbol and its validators (the SymbolResultAction closures). */
  class Symbol {
    const kind: SymbolKind
    var validators: seq<SymbolRegistration>

    constructor (kind: SymbolKind)
      ensures this.kind == kind && validators == []
    {
      this.kind := kind;
      validators := [];
    }
  }

  /** ConfigureOptionsBuilder: an argument or an option gets one more
      validator; any other symbol is refused with InvalidOperationException. */
  method ConfigureOptionsBuilder(symbol: Symbol, reg: SymbolRegistration) returns (r: Outcome)
    modifies symbol
    ensures symbol.kind in {ArgumentSymbol, OptionSymbol} ==>
      r == Pass && symbol.validators == old(symbol.validators) + [reg]
    ensures symbol.kind !in {ArgumentSymbol, OptionSymbol} ==>
      r == Fail(InvalidOperation) && symbol.validators == old(symbol.validators)
  {
    match symbol.kind
    case ArgumentSymbol =>
      symbol.validators := symbol.validators + [reg];
      r := Pass;
    case OptionSymbol =>
      symbol.validators := symbol.validators + [reg];
      r := Pass;
    case _ =>
      r := Fail(InvalidOperation);
  }

  /** The four Configure/PostConfigure extensions on Option<T>: a null
      option is refused, otherwise the option itself is returned after it
      got its validator. The overloads without a name pass null. */
  method ConfigureOption(option: Option<Symbol>, optionsName: Option<string>, mode: SetupMode, callback: nat)
    returns (r: Result<Symbol>)
    requires option.Some? ==> option.value.kind == OptionSymbol
    modifies if option.Some? then {option.value} else {}
    ensures option.None? ==> r == Err(ArgumentNull)
    ensures option.Some? ==>
      && r == Ok(option.value)
      && option.value.validators == old(option.value.validators) + [SymbolRegistration(optionsName, mode, callback)]
  {
    if option.None? {
      return Err(ArgumentNull);
    }
    var outcome := ConfigureOptionsBuilder(option.value, SymbolRegistration(optionsName, mode, callback));
    r := Ok(option.value);
  }

  /** UseHost / UseHostApplicationBuilder, on Command and RootCommand alike:
      a null command is refused, otherwise the command's action becomes a
      new host action and the same command is returned. */
  method UseHost(command: Option<Command>, kind: HostBuilderKind) returns (r: Result<Command>)
    modifies if command.Some? then {command.value} else {}
    ensures command.None? ==> r == Err(ArgumentNull)
    ensures command.Some? ==>
      && r == Ok(command.value)
      && command.value.action.Some? && fresh(command.value.action.value)
      && command.value.action.value.builderKind == kind
      && command.value.action.value.configureSymbolServices == []
  {
    if command.None? {
      return Err(ArgumentNull);
    }
    var action := new HostAction(kind);
    command.value.action := Some(action);
    r := Ok(command.value);
  }

  // ---------------------------------------------------------------------
  // The parse tree and the walk to the enclosing command

  /** A SymbolResult: a command result (of some command) or a result of
      another kind; `parent` is its Parent, by position in the tree. */
  datatype ResultNode =
    | CommandResultNode(command: Command, parent: Option<nat>)
    | OtherResultNode(parent: Option<nat>)

  /** Parents come before their children, so every parent chain ends. */
  predicate WellFormed(nodes: seq<ResultNode>)
  {
    forall i :: 0 <= i < |nodes| && nodes[i].parent.Some? ==> nodes[i].parent.value < i
  }

  /** The result itself followed by its ancestors, nearest first. */
  ghost function ParentChain(nodes: seq<ResultNode>, i: nat): (chain: seq<nat>)
    requires WellFormed(nodes) && i < |nodes|
    ensures |chain| >= 1 && chain[0] == i
    ensures forall k :: 0 <= k < |chain| ==> chain[k] < |nodes|
    ensures forall k :: 0 <= k < |chain| - 1 ==> nodes[chain[k]].parent == Some(chain[k + 1])
    ensures nodes[chain[|chain| - 1]].parent.None?
    decreases i
  {
    match nodes[i].parent
    case None => [i]
    case Some(p) => [i] + ParentChain(nodes, p)
  }

  /** The first command result on the parent chain, if any. */
  ghost function EnclosingCommand(nodes: seq<ResultNode>, i: nat): (c: Option<nat>)
    requires WellFormed(nodes) && i < |nodes|
    ensures c.Some? ==> c.value < |nodes| && nodes[c.value].CommandResultNode?
    decreases i
  {
    if nodes[i].CommandResultNode? then Some(i)
    else match nodes[i].parent
      case None => None
      case Some(p) => EnclosingCommand(nodes, p)
  }

  /** The first entry of a chain of positions that is a command result. */
  ghost function FirstCommandOn(nodes: seq<ResultNode>, chain: seq<nat>): Option<nat>
    decreases |chain|
  {
    if chain == [] then None
    else if chain[0] < |nodes| && nodes[chain[0]].CommandResultNode? then Some(chain[0])
    else FirstCommandOn(nodes, chain[1..])
  }

  /** FirstCommandOn finds the first command result of the chain: every
      entry before it is not a command result, and when there is none, no
      entry is one. */
  lemma {:induction false} FirstCommandOnIsFirst(nodes: seq<ResultNode>, chain: seq<nat>)
    requires forall k :: 0 <= k < |chain| ==> chain[k] < |nodes|
    ensures FirstCommandOn(nodes, chain).None? ==>
      forall k :: 0 <= k < |chain| ==> !nodes[chain[k]].CommandResultNode?
    ensures FirstCommandOn(nodes, chain).Some? ==>
      exists n :: 0 <= n < |chain| && chain[n] == FirstCommandOn(nodes, chain).value
        && forall k :: 0 <= k < n ==> !nodes[chain[k]].CommandResultNode?
    decreases |chain|
  {
    if chain != [] && !nodes[chain[0]].CommandResultNode? {
      var rest := chain[1..];
      FirstCommandOnIsFirst(nodes, rest);
      if FirstCommandOn(nodes, rest).None? {
        forall k | 0 <= k < |chain| ensures !nodes[chain[k]].CommandResultNode? {
          if k > 0 { assert chain[k] == rest[k - 1]; }
        }
      } else {
        var n :| 0 <= n < |rest| && rest[n] == FirstCommandOn(nodes, rest).value
          && forall k :: 0 <= k < n ==> !nodes[rest[k]].CommandResultNode?;
        assert chain[n + 1] == rest[n];
        forall k | 0 <= k < n + 1 ensures !nodes[chain[k]].CommandResultNode? {
          if k > 0 { assert chain[k] == rest[k - 1]; }
        }
      }
    } else if chain != [] {
      assert chain[0] == FirstCommandOn(nodes, chain).value;
    }
  }

  /** EnclosingCommand is the first command result on the parent chain,
      which may be the result itself (see FirstCommandOnIsFirst). */
  lemma {:induction false} EnclosingCommandIsFirstOnChain(nodes: seq<ResultNode>, i: nat)
    requires WellFormed(nodes) && i < |nodes|
    ensures EnclosingCommand(nodes, i) == FirstCommandOn(nodes, ParentChain(nodes, i))
    decreases i
  {
    var chain := ParentChain(nodes, i);
    if !nodes[i].CommandResultNode? {
      match nodes[i].parent
      case None =>
        assert chain == [i] && chain[1..] == [];
      case Some(p) =>
        EnclosingCommandIsFirstOnChain(nodes, p);
        assert chain[1..] == ParentChain(nodes, p);
    }
  }

  /** The `for` loop of SymbolResultAction: follow Parent links from the
      validated result and stop at the first command result, which may be
      the result itself. */
  method FindCommandResult(nodes: seq<ResultNode>, start: nat) returns (commandResult: Option<nat>)
    requires WellFormed(nodes) && start < |nodes|
    ensures commandResult == EnclosingCommand(nodes, start)
  {
    var current: Option<nat> := Some(start);
    commandResult := None;
    while current.Some? && commandResult.None?
      invariant current.Some? ==> current.value < |nodes|
      invariant commandResult.None? ==> current.Some? ==> EnclosingCommand(nodes, current.value) == EnclosingCommand(nodes, start)
      invariant commandResult.None? && current.None? ==> EnclosingCommand(nodes, start).None?
      invariant commandResult.Some? ==> commandResult == EnclosingCommand(nodes, start)
      decreases if current.Some? then current.value + 1 else 0, if commandResult.None? then 1 else 0
    {
      var i := current.value;
      if nodes[i].CommandResultNode? {
        commandResult := Some(i);
      } else {
        current := nodes[i].parent;
      }
    }
  }

  /** The host actions reachable from command results of the tree. */
  function TreeActions(nodes: seq<ResultNode>): set<HostAction>
    reads set i | 0 <= i < |nodes| && nodes[i].CommandResultNode? :: nodes[i].command
  {
    set i | 0 <= i < |nodes| && nodes[i].CommandResultNode? && nodes[i].command.action.Some?
      :: nodes[i].command.action.value
  }

  /** SymbolResultAction, the validator: when the enclosing command result
      runs a host action, that action's ConfigureSymbolServices gains the
      symbol's callback; otherwise nothing changes. */
  method SymbolResultAction(nodes: seq<ResultNode>, start: nat, reg: SymbolRegistration)
    requires WellFormed(nodes) && start < |nodes|
    modifies TreeActions(nodes)
    ensures match EnclosingCommand(nodes, start)
      case None => true
      case Some(c) => nodes[c].command.action.Some? ==>
        var a := nodes[c].command.action.value;
        a.configureSymbolServices == old(a.configureSymbolServices) + [reg]
        && forall b :: b in TreeActions(nodes) && b != a ==> b.configureSymbolServices == old(b.configureSymbolServices)
    ensures (EnclosingCommand(nodes, start).None? ||
             nodes[EnclosingCommand(nodes, start).value].command.action.None?) ==>
      forall b :: b in TreeActions(nodes) ==> b.configureSymbolServices == old(b.configureSymbolServices)
  {
    var commandResult := FindCommandResult(nodes, start);
    if commandResult.None? {
      return;
    }
    var action := nodes[commandResult.value].command.action;
    if action.None? {
      return;
    }
    action.value.configureSymbolServices := action.value.configureSymbolServices + [reg];
  }

  // ---------------------------------------------------------------------
  // From callback to options setup

  /** An options setup registered by ConfigureHostServices:
      `AddOptions<TOptions>(optionsName)` names the builder
      `optionsName ?? Options.DefaultName`, and Configure / PostConfigure
      register a setup for exactly that name. */
  datatype OptionsSetup = OptionsSetup(name: string, mode: SetupMode, callback: nat)

  function ConfigureHostServices(reg: SymbolRegistration): (s: OptionsSetup)
    ensures s.mode == reg.mode && s.callback == reg.callback
    ensures reg.optionsName.None? ==> s.name == DefaultName
    ensures reg.optionsName.Some? ==> s.name == reg.optionsName.value
  {
    OptionsSetup(NameOrDefault(reg.optionsName), reg.mode, reg.callback)
  }

  /** The kind of result the parse result holds for the symbol. */
  datatype ParsedSymbol<V> = ArgumentResult(argValue: V) | OptionResult(optValue: V)

  /** ConfigureOptionsInstance: without a result for the symbol the options
      stay as they are; a result of the symbol's own kind passes its value to
      the callback (when there is one); a mismatched pair throws
      InvalidOperationException. */
  function ConfigureOptionsInstance<O, V>(kind: SymbolKind, parsed: Option<ParsedSymbol<V>>,
                                          callback: Option<(O, V) -> O>, options: O): (r: Result<O>)
    ensures parsed.None? ==> r == Ok(options)
    ensures parsed.Some? && kind == ArgumentSymbol && parsed.value.ArgumentResult? ==>
      r == Ok(if callback.Some? then callback.value(options, parsed.value.argValue) else options)
    ensures parsed.Some? && kind == OptionSymbol && parsed.value.OptionResult? ==>
      r == Ok(if callback.Some? then callback.value(options, parsed.value.optValue) else options)
    ensures r.Err? <==> parsed.Some? && !(kind == ArgumentSymbol && parsed.value.ArgumentResult?)
                          && !(kind == OptionSymbol && parsed.value.OptionResult?)
    ensures r.Err? ==> r.error == InvalidOperation
  {
    match parsed
    case None => Ok(options)
    case Some(ArgumentResult(v)) =>
      if kind == ArgumentSymbol then Ok(if callback.Some? then callback.value(options, v) else options)
      else Err(InvalidOperation)
    case Some(OptionResult(v)) =>
      if kind == OptionSymbol then Ok(if callback.Some? then callback.value(options, v) else options)
      else Err(InvalidOperation)
  }

  /** The options class of the hosting test. */
  datatype HostingCommandLineOptions = HostingCommandLineOptions(intOption: int)

  /** `--int-option 42` bound with `options.IntOption = value` yields
      IntOption 42, and one invocation that returns 0 gives exit code 0. */
  lemma IntOptionScenario(before: HostingCommandLineOptions)
    ensures ConfigureOptionsInstance(OptionSymbol, Some(OptionResult(42)),
              Some((o: HostingCommandLineOptions, v: int) => o.(intOption := v)), before)
            == Ok(HostingCommandLineOptions(42))
    ensures CommandLineHosting.InvocationExecutionResult([CommandLineHosting.RanToCompletion(0)])
            == CommandLineHosting.Execution(Ok(0), true)
  {
    var e := CommandLineHosting.InvocationExecutionResult([CommandLineHosting.RanToCompletion(0)]);
    assert e.exitCode.Ok?;
  }
}
