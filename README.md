# A verified model of the dotnet-generichost-extensions core

This project models, in Dafny, the small pieces of sequential logic inside
the generic-host extension libraries: the glue that ties SDK clients into
the .NET dependency-injection, options, logging and hosting frameworks. The
foreign frameworks are abstracted. Options instances are values and setups are
functions on them. Loggers and writers are append-only traces. `Uri.IsBaseOf`
is a relation given as a parameter. HTTP sending is a function from request to
response.

One module per component:

- `Common`: the Option/Result/error vocabulary and the .NET helpers the
  code relies on: trimming, ordinal ignore-case comparison, first index,
  `Split`, `Int32.TryParse` and the `"0000"` number format.
- `CommandLineHosting`: the two command-line actions (`HostCommandLineAction`
  and its older twin `HostingCommandLineAction`). It covers the parsing of
  host-configuration directive tokens, the fixed order of builder steps in
  `InvokeAsync`, and the rule that turns the hosted invocations' results into
  the exit code. The invocations are awaited inside a `try`/`finally`
  without a `catch`, and the host is stopped in the code after that block,
  so a faulted or cancelled invocation rethrows before the host is stopped.
- `HostSymbols`: `HostSymbolExtensions`. Configuring an option adds a
  validator. The validator walks up the parse tree to the enclosing command
  result and hands its host action a callback that binds the parsed value to
  the options.
- `HostingStartup`: reading the hosting-startup keys. It covers the
  boolean-like and semicolon-list parsers, de-duplication ignoring case, and
  the prevent/include/exclude decision, expressed as a list of load steps.
- `ConfigInsert`: inserting configuration sources at an index. A temporary
  source list shows the real list's prefix followed by the added sources.
  The added sources are then spliced into the real list.
- `ResourceRegistry`: the ordered URI-to-resource registry of the MSAL HTTP
  authorization handler. It keeps more specific URIs ahead of their bases,
  answers by first match, and supports single or multiple removal.
- `OptionsBag`: the per-request option dictionary. It has type-keyed and
  string-keyed values, and the scope list with its merging.
- `ManagedIdentity`: the managed-identity registry by options name, with a
  replaceable fallback.
- `OptionsPipeline`: the configure, then post-configure, then validate
  pipeline of `ConfigurableServiceDescriptor` and `MsalCacheHelperFactory`.
  It also covers the `ConfigureAll*` option classes and the replay of a base
  type's setups onto a derived options type (`Inherited*` and both
  `OptionsBuilderExtensions`). The three different gates for unnamed setups
  are modelled exactly.
- `Logging`, `MsalTraceListener`, `TUnitLogging`, `AzureLogging`: the
  logging adapters.
  - The MSAL cache trace listener maps trace-event bits to log levels, in
    its buffered and its unbuffered variant.
  - The two TUnit loggers' level table and line format.
  - The Azure event-source forwarder's level arithmetic and its
    per-name logger cache.
- `SharePointExecutor`: the SharePoint web-request executor over
  `HttpClient`. It covers method normalisation, keep-alive, routing request
  headers to the message or to its content, dropping the body of GET and
  HEAD, the send-once rule, and the guards on the response.

Where the source mutates an object, the model is a class whose methods
state the object's whole new state. Examples are the registries, the
temporary source list, the trace listeners, the logger cache and the
executor. Where the source loops, the model is a method with a loop that is
proved against a specification function. The properties are lemmas about
those functions.

## Model

| member | source | states |
|---|---|---|
| Common.NameOrDefault | src/FredrikHr.MsExtOptions.Helpers/ConfigurableServiceDescriptor.cs:53 | a null name reads as the default name; any other name is kept |
| Common.Trim | src/FredrikHr.Extensions.HostingStartup/HostingStartupHostBuilderExtensions.cs:146-148 | the result is trimmed at both ends and leaves a trimmed input unchanged; it is empty exactly when the input is all white space |
| Common.SplitOn | src/FredrikHr.Extensions.HostingStartup/HostingStartupHostBuilderExtensions.cs:149 | splitting yields at least one piece, and no piece contains the separator |
| Common.SplitJoinRoundTrip | src/FredrikHr.Extensions.HostingStartup/HostingStartupHostBuilderExtensions.cs:149 | pieces without the separator, joined with it, split back into the same pieces |
| Common.TryParseInt32 | src/FredrikHr.Extensions.HostingStartup/HostingStartupHostBuilderExtensions.cs:130 | a parsed value always fits 32 bits |
| Common.TryParseInt32Accepts | src/FredrikHr.Extensions.HostingStartup/HostingStartupHostBuilderExtensions.cs:130 | when the text, with leading white space and a final run of '\0' characters and the white space before it removed, is a sign (none, '+' or '-') followed by one or more digits, the result is their value exactly when it fits 32 bits, and a failure otherwise |
| Common.TryParseInt32Decomposes | src/FredrikHr.Extensions.HostingStartup/HostingStartupHostBuilderExtensions.cs:130 | every accepted text is, with that white space and trailing '\0' run removed, a sign followed by one or more digits, and the result is their value, so every other text is rejected |
| Common.TrailingNulsIgnored | src/FredrikHr.Extensions.HostingStartup/HostingStartupHostBuilderExtensions.cs:130 | '\0' characters appended to any text never change the result, as the parser's trailing-zeros rule accepts them ("1\0" reads as 1) |
| Common.ParsesSignedDigits | src/FredrikHr.Extensions.HostingStartup/HostingStartupHostBuilderExtensions.cs:130 | a sign followed by digits whose value fits 32 bits parses to that value |
| Common.FormatParseRoundTrip | src/FredrikHr.Extensions.HostingStartup/HostingStartupHostBuilderExtensions.cs:130 | an int32 written in decimal parses back to itself |
| Common.FormatInt0000 | src/FredrikHr.MsExtLogging.TUnit/TUnitLogger.cs:117 | the "0000" format gives at least four digits, preceded by a minus sign for a negative value |
| Common.FormatInt0000RoundTrip | src/FredrikHr.MsExtLogging.TUnit/TUnitLogger.cs:117 | an int32 in the "0000" format parses back to itself |
| CommandLineHosting.GetKeyValuePair | src/FredrikHr.CommandLineApi.Hosting/HostCommandLineAction.cs:104-118 | the value is absent exactly when the token has no '='; the key and the value are trimmed and the key holds no '='; without '=' the key is the trimmed token |
| CommandLineHosting.GetKeyValuePairRoundTrip | src/FredrikHr.CommandLineApi.Hosting/HostCommandLineAction.cs:104-118 | a trimmed key without '=' and a trimmed value are read back from the token "key=value" (or "key" when there is no value) |
| CommandLineHosting.GetKeyValuePairFirstEquals | src/FredrikHr.CommandLineApi.Hosting/HostingCommandLineAction.cs:59-74 | only the first '=' splits: "k=v" gives the trimmed k and the trimmed v, whatever '=' v holds, as in the older action's inline lambda |
| CommandLineHosting.DirectivePairs | src/FredrikHr.CommandLineApi.Hosting/HostCommandLineAction.cs:90-91 | one pair per directive value, in token order |
| CommandLineHosting.FirstMatchingDirective | src/FredrikHr.CommandLineApi.Hosting/HostCommandLineAction.cs:84-102 | the position of the first directive whose name equals the configuration directive's name ignoring case, or -1 exactly when none does |
| CommandLineHosting.BuilderArgs | src/FredrikHr.CommandLineApi.Hosting/HostCommandLineAction.cs:45-46 | null unmatched tokens give the factory an empty array, otherwise the tokens in order |
| CommandLineHosting.ServiceRegistrations | src/FredrikHr.CommandLineApi.Hosting/HostCommandLineAction.cs:54-64 | the parse result, its configuration, the invocation and the hosted service, in that order, then each symbol-services callback |
| CommandLineHosting.PrepareHostBuilder | src/FredrikHr.CommandLineApi.Hosting/HostCommandLineAction.cs:39-66 | a null parse result fails with ArgumentNullException before anything else; otherwise a fresh builder gets the unmatched tokens and the overlay, services and ConfigureBuilder steps in order; only the newer action clears ProcessTerminationTimeout (HostingCommandLineAction.cs:39-93 leaves it) |
| CommandLineHosting.RegistrationOrder | src/FredrikHr.CommandLineApi.Hosting/HostCommandLineAction.cs:52-66 | at most one configuration overlay first, then the services callback with its fixed registrations before the symbol callbacks, and ConfigureBuilder last |
| CommandLineHosting.DirectiveOverlayChoice | src/FredrikHr.CommandLineApi.Hosting/HostCommandLineAction.cs:84-96 | an overlay is added exactly when the root command's first matching directive has a result, and its pairs follow that result's tokens one for one |
| CommandLineHosting.FirstNonZero | src/FredrikHr.CommandLineApi.Hosting/HostCommandLineAction.cs:151 | 0 exactly when every result is 0, otherwise the first non-zero result |
| CommandLineHosting.FirstNonZeroAppend | src/FredrikHr.CommandLineApi.Hosting/HostCommandLineAction.cs:151 | the first non-zero value of a concatenation comes from its left part when that part has one |
| CommandLineHosting.SuccessfulResults | src/FredrikHr.CommandLineApi.Hosting/HostCommandLineAction.cs:137-147 | never more results than tasks; when every task succeeded, every task's result in task order |
| CommandLineHosting.InvocationExecutionResult | src/FredrikHr.CommandLineApi.Hosting/HostCommandLineAction.cs:121-152 | the host is stopped exactly when an exit code is produced, which is exactly when every task succeeded; a faulted task gives its fault; the exit code is the first non-zero result or 0 (the same in HostingCommandLineAction.cs:107-135) |
| HostSymbols.ConfigureOptionsBuilder | src/FredrikHr.CommandLineApi.Hosting/HostSymbolExtensions.cs:21-31 | an argument or an option gets exactly one more validator; any other symbol is refused with InvalidOperationException and keeps its validators |
| HostSymbols.ConfigureOption | src/FredrikHr.CommandLineApi.Hosting/HostSymbolExtensions.cs:88-107 | a null option is refused with ArgumentNullException; otherwise the same option is returned with one more validator for the given name, mode and callback (the overloads without a name, and PostConfigure at 109-148, pass null or the post-configure mode) |
| HostSymbols.UseHost | src/FredrikHr.CommandLineApi.Hosting/HostSymbolExtensions.cs:150-167 | a null command is refused with ArgumentNullException; otherwise the same command is returned and its action is a new host action of the requested builder kind with no symbol services (likewise UseHostApplicationBuilder at 207-232); for the IHostBuilder kind this assumes the newer action, see "## Left out" |
| HostSymbols.ParentChain | src/FredrikHr.CommandLineApi.Hosting/HostSymbolExtensions.cs:36-39 | the result followed by its Parent links, each entry the parent of the one before, ending at a result without a parent |
| HostSymbols.EnclosingCommand | src/FredrikHr.CommandLineApi.Hosting/HostSymbolExtensions.cs:36-39 | when present, a command result of the tree |
| HostSymbols.EnclosingCommandIsFirstOnChain | src/FredrikHr.CommandLineApi.Hosting/HostSymbolExtensions.cs:36-39 | the enclosing command is the first command result on the parent chain, which may be the result itself |
| HostSymbols.FirstCommandOnIsFirst | src/FredrikHr.CommandLineApi.Hosting/HostSymbolExtensions.cs:36-39 | the first command result of a chain is one of its entries and no entry before it is a command result; when there is none, no entry is one |
| HostSymbols.FindCommandResult | src/FredrikHr.CommandLineApi.Hosting/HostSymbolExtensions.cs:35-39 | the parent-walking loop stops at exactly the enclosing command result, or at none |
| HostSymbols.SymbolResultAction | src/FredrikHr.CommandLineApi.Hosting/HostSymbolExtensions.cs:33-44 | when the enclosing command runs a host action, that action alone gains the symbol's callback once; without an enclosing command or a host action no action changes |
| HostSymbols.ConfigureHostServices | src/FredrikHr.CommandLineApi.Hosting/HostSymbolExtensions.cs:46-50 | the setup registered for the host is for the options name, or for the default name when the name is null, with the symbol's mode and callback |
| HostSymbols.ConfigureOptionsInstance | src/FredrikHr.CommandLineApi.Hosting/HostSymbolExtensions.cs:52-65 | without a result the options are unchanged; a result of the symbol's own kind passes its value to the callback, if any; a mismatched pair fails with InvalidOperationException, and nothing else fails |
| HostSymbols.IntOptionScenario | test/FredrikHr.CommandLineApi.Hosting.TUnit/HostingOptionsTest.cs:35-60 | binding "--int-option 42" gives IntOption 42, and a single invocation returning 0 gives exit code 0 with the host stopped |
| HostingStartup.ParseBooleanLikeValue | src/FredrikHr.Extensions.HostingStartup/HostingStartupHostBuilderExtensions.cs:118-142 | null or empty gives no answer; "true" and "false" in any case give their value; otherwise an int32 0 gives false, 1 gives true, and anything else no answer; a true answer comes only from "true" or 1 and a false one only from "false" or 0 |
| HostingStartup.BooleanLikeIntegers | src/FredrikHr.Extensions.HostingStartup/HostingStartupHostBuilderExtensions.cs:130-141 | every int32 written out in decimal reads as false for 0, true for 1 and no answer otherwise |
| HostingStartup.TrimAndDropEmptyShape | src/FredrikHr.Extensions.HostingStartup/HostingStartupHostBuilderExtensions.cs:146-149 | never more entries than pieces, and each kept entry is non-empty and trimmed |
| HostingStartup.TrimAndDropEmptyWithout | src/FredrikHr.Extensions.HostingStartup/HostingStartupHostBuilderExtensions.cs:146-149 | trimming adds no characters: a character no piece holds, such as the separator, is in no kept entry |
| HostingStartup.ParseSemicolonSeparatedList | src/FredrikHr.Extensions.HostingStartup/HostingStartupHostBuilderExtensions.cs:144-151 | null gives an empty list; every entry is non-empty, trimmed and free of ';' |
| HostingStartup.TrimAndDropEmptyOfClean | src/FredrikHr.Extensions.HostingStartup/HostingStartupHostBuilderExtensions.cs:146-149 | entries that are already non-empty and trimmed pass through unchanged |
| HostingStartup.SemicolonListRoundTrip | src/FredrikHr.Extensions.HostingStartup/HostingStartupHostBuilderExtensions.cs:144-151 | clean entries joined with ';' parse back to the same list |
| HostingStartup.DistinctIgnoreCase | src/FredrikHr.Extensions.HostingStartup/HostingStartupHostBuilderExtensions.cs:45-54 | the result has no two entries equal ignoring case, every entry comes from the input, and the input's values (ignoring case) are all kept |
| HostingStartup.DistinctKeepsFirstSpelling | src/FredrikHr.Extensions.HostingStartup/HostingStartupHostBuilderExtensions.cs:46-48 | the first spelling of every value is the one kept |
| HostingStartup.PathStepsShape | src/FredrikHr.Extensions.HostingStartup/HostingStartupHostBuilderExtensions.cs:72-86 | each step loads a file path, with the exclude list, whose assembly name no excluded name matches |
| HostingStartup.PathStepsKeepOrder | src/FredrikHr.Extensions.HostingStartup/HostingStartupHostBuilderExtensions.cs:72-86 | the steps load the configured paths in their configured order, skipping exactly those whose assembly an excluded name matches |
| HostingStartup.PathStepsMembership | src/FredrikHr.Extensions.HostingStartup/HostingStartupHostBuilderExtensions.cs:72-86 | a path is loaded, with the exclude list, exactly when it is configured and its assembly matches no excluded name |
| HostingStartup.PlanPathSteps | src/FredrikHr.Extensions.HostingStartup/HostingStartupHostBuilderExtensions.cs:56-86 | the name loop runs before the path loop, and the plan loads a path exactly when it is configured and not excluded |
| HostingStartup.LoadedNamesAppend | src/FredrikHr.Extensions.HostingStartup/HostingStartupHostBuilderExtensions.cs:56-86 | the names loaded by two runs of steps are the first run's names followed by the second's |
| HostingStartup.LoadedNamesOfNameSteps | src/FredrikHr.Extensions.HostingStartup/HostingStartupHostBuilderExtensions.cs:56-66 | the name loop loads exactly the given names, in order |
| HostingStartup.LoadedNamesOfPathSteps | src/FredrikHr.Extensions.HostingStartup/HostingStartupHostBuilderExtensions.cs:72-86 | the file-path loop loads nothing by name |
| HostingStartup.PlanConcat | src/FredrikHr.Extensions.HostingStartup/HostingStartupHostBuilderExtensions.cs:56-86 | the name steps followed by the path steps load exactly the names, give every load context the exclude list, and load no excluded path |
| HostingStartup.LoadPlan | src/FredrikHr.Extensions.HostingStartup/HostingStartupHostBuilderExtensions.cs:27-92 | nothing is loaded when preventHostingStartup reads as true; otherwise every configured name is loaded exactly once ignoring case, every load context gets the de-duplicated exclude list, all loads by name come before all loads by path, and a file path is loaded exactly when it is configured and its assembly matches no excluded name |
| HostingStartup.RunLoadLoops | src/FredrikHr.Extensions.HostingStartup/HostingStartupHostBuilderExtensions.cs:56-86 | the two loops produce the name steps followed by the non-excluded path steps |
| HostingStartup.LoadByNames | src/FredrikHr.Extensions.HostingStartup/HostingStartupHostBuilderExtensions.cs:56-66 | the name loop yields one load-by-name step per listed name, in order, each carrying the exclude list |
| HostingStartup.LoadFromPaths | src/FredrikHr.Extensions.HostingStartup/HostingStartupHostBuilderExtensions.cs:72-86 | the path loop yields one load-from-path step per path, in order, skipping every path whose assembly name an excluded name matches |
| HostingStartup.UseHostingStartupAssemblyLoading | src/FredrikHr.Extensions.HostingStartup/HostingStartupHostBuilderExtensions.cs:22-93 | a null builder fails with ArgumentNullException; otherwise the loading decision is the load plan of the configuration |
| ConfigInsert.Take | src/FredrikHr.MsExtConfiguration.Helpers/ConfigurationBuilderInsertExtensions.cs:52 | the first n sources of the origin's list (none for n <= 0, all when n exceeds the length), in order |
| ConfigInsert.Enumerate | src/FredrikHr.MsExtConfiguration.Helpers/ConfigurationBuilderInsertExtensions.cs:50-53 | the enumeration ends with the added sources; with a shared prefix it is that prefix of the origin's list followed by the added sources |
| ConfigInsert.Count | src/FredrikHr.MsExtConfiguration.Helpers/ConfigurationBuilderInsertExtensions.cs:30 | with a shared prefix, the length of that prefix followed by the added sources |
| ConfigInsert.ViewIndexOf | src/FredrikHr.MsExtConfiguration.Helpers/ConfigurationBuilderInsertExtensions.cs:55-61 | a position below insertIndex holds the item in the origin's list, a position from insertIndex on holds it among the added sources, and -1 comes back exactly when Contains is false |
| ConfigInsert.ViewContains | src/FredrikHr.MsExtConfiguration.Helpers/ConfigurationBuilderInsertExtensions.cs:38-43 | true exactly when the item is among the added sources or occurs below insertIndex in the origin's list |
| ConfigInsert.GetAt | src/FredrikHr.MsExtConfiguration.Helpers/ConfigurationBuilderInsertExtensions.cs:13-20 | a read succeeds exactly when the index falls in the origin's list below insertIndex or among the added sources from insertIndex on; otherwise it fails with ArgumentOutOfRangeException |
| ConfigInsert.TemporarySourceList.constructor | src/FredrikHr.MsExtConfiguration.Helpers/ConfigurationBuilderInsertExtensions.cs:7-11 | a new list over the origin at insertIndex starts with no added sources |
| ConfigInsert.TemporarySourceList.Set | src/FredrikHr.MsExtConfiguration.Helpers/ConfigurationBuilderInsertExtensions.cs:21-27 | the setter writes through to the origin below insertIndex and to the added sources from insertIndex on, as Step says, and changes nothing when it fails |
| ConfigInsert.TemporarySourceList.Add | src/FredrikHr.MsExtConfiguration.Helpers/ConfigurationBuilderInsertExtensions.cs:34 | the item is appended to the added sources |
| ConfigInsert.TemporarySourceList.Clear | src/FredrikHr.MsExtConfiguration.Helpers/ConfigurationBuilderInsertExtensions.cs:36 | the added sources are emptied; the origin is untouched |
| ConfigInsert.TemporarySourceList.Insert | src/FredrikHr.MsExtConfiguration.Helpers/ConfigurationBuilderInsertExtensions.cs:63-67 | the item is inserted among the added sources at index - insertIndex, as Step says; out of range nothing changes |
| ConfigInsert.TemporarySourceList.Remove | src/FredrikHr.MsExtConfiguration.Helpers/ConfigurationBuilderInsertExtensions.cs:69-75 | a source of the shared prefix is refused with InvalidOperationException; otherwise the first added occurrence is removed and the result says whether there was one |
| ConfigInsert.TemporarySourceList.RemoveAt | src/FredrikHr.MsExtConfiguration.Helpers/ConfigurationBuilderInsertExtensions.cs:77-81 | the added source at index - insertIndex is removed, as Step says; out of range nothing changes |
| ConfigInsert.TemporarySourceList.CopyTo | src/FredrikHr.MsExtConfiguration.Helpers/ConfigurationBuilderInsertExtensions.cs:45-48 | only the added sources are copied into the array at arrayIndex, the rest of the array is kept; a negative index or too small an array fails and leaves the array unchanged |
| ConfigInsert.TemporarySourceList.RunAction | src/FredrikHr.MsExtConfiguration.Helpers/ConfigurationBuilderInsertExtensions.cs:114 | the caller's action is applied one operation at a time until the first exception, leaving the state RunScript describes |
| ConfigInsert.TemporaryConfigurationBuilder.constructor | src/FredrikHr.MsExtConfiguration.Helpers/ConfigurationBuilderInsertExtensions.cs:86-90 | the temporary builder's source list is new, over the origin at the index, with no added sources |
| ConfigInsert.TemporaryConfigurationBuilder.Add | src/FredrikHr.MsExtConfiguration.Helpers/ConfigurationBuilderInsertExtensions.cs:92-96 | the source is appended to the added sources and the builder itself is returned |
| ConfigInsert.TemporaryConfigurationBuilder.Build | src/FredrikHr.MsExtConfiguration.Helpers/ConfigurationBuilderInsertExtensions.cs:98-101 | always fails with InvalidOperationException |
| ConfigInsert.CopyNewSources | src/FredrikHr.MsExtConfiguration.Helpers/ConfigurationBuilderInsertExtensions.cs:115-118 | when anything was added and insertIndex lies within the real list, the real list becomes its first insertIndex sources, the added sources in order, then the rest; otherwise the first insertion fails with ArgumentOutOfRangeException and nothing changes |
| ConfigInsert.Insert | src/FredrikHr.MsExtConfiguration.Helpers/ConfigurationBuilderInsertExtensions.cs:104-121 | a null builder fails with ArgumentNullException; a null action returns the builder unchanged; an exception in the action stops everything; otherwise the real list is old[0..index] + added + old[index..] |
| ConfigInsert.GetAtIsEnumerated | src/FredrikHr.MsExtConfiguration.Helpers/ConfigurationBuilderInsertExtensions.cs:13-30 | the view's Count is the length of what it enumerates, and the indexer reads exactly the enumerated element at every valid index |
| ConfigInsert.IndexOfIsFirstInView | src/FredrikHr.MsExtConfiguration.Helpers/ConfigurationBuilderInsertExtensions.cs:38-61 | IndexOf gives the first position of the item in the enumerated view, or -1, and Contains holds exactly when the item is enumerated |
| ConfigInsert.FoundInSharedPrefix | src/FredrikHr.MsExtConfiguration.Helpers/ConfigurationBuilderInsertExtensions.cs:57-58 | an item whose first position in the origin list lies before the insert index has that same first position in the view |
| ConfigInsert.FoundAmongAdded | src/FredrikHr.MsExtConfiguration.Helpers/ConfigurationBuilderInsertExtensions.cs:59-60 | any other item is first found in the view at its position among the added sources plus the insert index, or not at all, and is in the view exactly when it is among the added sources |
| ConfigInsert.IndexOfUnique | src/FredrikHr.MsExtConfiguration.Helpers/ConfigurationBuilderInsertExtensions.cs:55-61 | a first occurrence is the position IndexOf reports |
| ConfigInsert.AddAppendsToView | src/FredrikHr.MsExtConfiguration.Helpers/ConfigurationBuilderInsertExtensions.cs:34 | Add appends the item to the enumerated view and leaves the origin alone |
| ConfigInsert.InsertIntoView | src/FredrikHr.MsExtConfiguration.Helpers/ConfigurationBuilderInsertExtensions.cs:63-67 | Insert at a position of the added part inserts into the enumerated view at that very position |
| ConfigInsert.RemoveAtFromView | src/FredrikHr.MsExtConfiguration.Helpers/ConfigurationBuilderInsertExtensions.cs:77-81 | RemoveAt at a position of the added part removes exactly that element from the enumerated view |
| ConfigInsert.PrefixIsFixedLength | src/FredrikHr.MsExtConfiguration.Helpers/ConfigurationBuilderInsertExtensions.cs:34-81 | no successful operation changes the length of the origin's list, only the setter changes its contents, and no insertion or removal touches the shared prefix |
| ConfigInsert.IndexOfInPrefix | src/FredrikHr.MsExtConfiguration.Helpers/ConfigurationBuilderInsertExtensions.cs:40-41 | an item lies in the first n sources exactly when its first index is below n |
| ConfigInsert.SpliceIsViewThenRest | src/FredrikHr.MsExtConfiguration.Helpers/ConfigurationBuilderInsertExtensions.cs:113-120 | the spliced real list is the enumerated view followed by the rest of the origin, and grows by the number of added sources |
| ConfigInsert.AddOnlyScript | src/FredrikHr.MsExtConfiguration.Helpers/ConfigurationBuilderInsertExtensions.cs:92-96 | an action that only adds leaves those sources, in order, after any earlier added sources, without an exception |
| ResourceRegistry.LeftPartAuthority | src/FredrikHr.Extensions.DependencyInjection.Msal/MsalHttpAuthorizationResourceRegistry.cs:48 | the default resource is the URI's scheme, "://" and its authority |
| ResourceRegistry.RegisteredUris | src/FredrikHr.Extensions.DependencyInjection.Msal/MsalHttpAuthorizationResourceRegistry.cs:9-22 | one URI per entry, each the entry's URI, in list order |
| ResourceRegistry.FirstBaseResource | src/FredrikHr.Extensions.DependencyInjection.Msal/MsalHttpAuthorizationResourceRegistry.cs:30-38 | no answer exactly when no entry from the position on is a base of the request; otherwise the resource of the first entry that is |
| ResourceRegistry.AddPosition | src/FredrikHr.Extensions.DependencyInjection.Msal/MsalHttpAuthorizationResourceRegistry.cs:64-78 | the first entry whose URI equals the new one or is a base of it, or -1 when none does |
| ResourceRegistry.UnmatchedMembers | src/FredrikHr.Extensions.DependencyInjection.Msal/MsalHttpAuthorizationResourceRegistry.cs:94-117 | exactly the entries the request does not match, never more entries than before |
| ResourceRegistry.FirstMatch | src/FredrikHr.Extensions.DependencyInjection.Msal/MsalHttpAuthorizationResourceRegistry.cs:100-105 | the first entry equal to the request or a base of it, from the position on, or -1 |
| ResourceRegistry.AuthorizationResourceRegistry.constructor | src/FredrikHr.Extensions.DependencyInjection.Msal/MsalHttpAuthorizationResourceRegistry.cs:3-7 | a new registry holds no entries |
| ResourceRegistry.AuthorizationResourceRegistry.GetRegisteredUris | src/FredrikHr.Extensions.DependencyInjection.Msal/MsalHttpAuthorizationResourceRegistry.cs:9-22 | a new array of every entry's URI in list order |
| ResourceRegistry.AuthorizationResourceRegistry.GetResource | src/FredrikHr.Extensions.DependencyInjection.Msal/MsalHttpAuthorizationResourceRegistry.cs:24-39 | a null request gives null; otherwise the resource of the first entry that is a base of the request, or null |
| ResourceRegistry.AuthorizationResourceRegistry.AddEntryForAuthority | src/FredrikHr.Extensions.DependencyInjection.Msal/MsalHttpAuthorizationResourceRegistry.cs:41-50 | a null URI fails with ArgumentNullException and changes nothing; otherwise the entry is added with the URI's scheme and authority as its resource |
| ResourceRegistry.AuthorizationResourceRegistry.AddEntry | src/FredrikHr.Extensions.DependencyInjection.Msal/MsalHttpAuthorizationResourceRegistry.cs:52-82 | a null URI fails with ArgumentNullException and changes nothing; otherwise an equal entry is replaced in place, or the new entry goes just before the first entry that is a base of it, or at the end |
| ResourceRegistry.AuthorizationResourceRegistry.RemoveClosestEntry | src/FredrikHr.Extensions.DependencyInjection.Msal/MsalHttpAuthorizationResourceRegistry.cs:84-87 | a null request changes nothing; otherwise the single-removal run of the loop |
| ResourceRegistry.AuthorizationResourceRegistry.RemoveMatchingEntries | src/FredrikHr.Extensions.DependencyInjection.Msal/MsalHttpAuthorizationResourceRegistry.cs:89-92 | a null request changes nothing; otherwise the loop as written, which skips the entry after each removal |
| ResourceRegistry.AuthorizationResourceRegistry.RemoveEntryCore | src/FredrikHr.Extensions.DependencyInjection.Msal/MsalHttpAuthorizationResourceRegistry.cs:94-117 | a null request changes nothing; otherwise the entries the removal loop leaves, with its index advancing after every removal |
| ResourceRegistry.AuthorizationResourceRegistry.RemoveAllMatchingEntries | src/FredrikHr.Extensions.DependencyInjection.Msal/MsalHttpAuthorizationResourceRegistry.cs:100-114 | a null request changes nothing; otherwise exactly the unmatched entries remain, in order |
| ResourceRegistry.RemoveAllMatching | src/FredrikHr.Extensions.DependencyInjection.Msal/MsalHttpAuthorizationResourceRegistry.cs:100-113 | corrected removal loop: re-examining the index after a removal leaves exactly the unmatched entries, in order |
| ResourceRegistry.AddedShape | src/FredrikHr.Extensions.DependencyInjection.Msal/MsalHttpAuthorizationResourceRegistry.cs:64-79 | the new entry is present; the count stays the same exactly when an equal URI comes before any base of it, else it grows by one and every old entry stays |
| ResourceRegistry.AddedKeepsOrdered | src/FredrikHr.Extensions.DependencyInjection.Msal/MsalHttpAuthorizationResourceRegistry.cs:60-81 | with a transitive IsBaseOf, no entry is ever preceded by a strict base of itself after an AddEntry |
| ResourceRegistry.AddThenResolve | src/FredrikHr.Extensions.DependencyInjection.Msal/MsalHttpAuthorizationResourceRegistry.cs:24-82 | when IsBaseOf holds of a URI and itself, looking the URI up right after adding it gives the resource just added |
| ResourceRegistry.FirstBaseResourceAt | src/FredrikHr.Extensions.DependencyInjection.Msal/MsalHttpAuthorizationResourceRegistry.cs:30-34 | the first entry that is a base of the request supplies the answer |
| ResourceRegistry.RemoveClosestIsFirstMatch | src/FredrikHr.Extensions.DependencyInjection.Msal/MsalHttpAuthorizationResourceRegistry.cs:84-117 | RemoveClosestEntry removes exactly the first entry the request matches, or nothing when there is none |
| ResourceRegistry.RemoveMatchingSkipsNeighbour | src/FredrikHr.Extensions.DependencyInjection.Msal/MsalHttpAuthorizationResourceRegistry.cs:100-113 | with two matching entries in a row, the loop as written leaves the second, while every matching entry should go |
| ManagedIdentity.Resolve | src/FredrikHr.Extensions.DependencyInjection.AzureIdentity/ManagedIdentityRegistry.cs:40-49 | a name (null read as the default name) with an entry resolves to that entry, any other to the fallback |
| ManagedIdentity.ManagedIdentityRegistry.constructor | src/FredrikHr.Extensions.DependencyInjection.AzureIdentity/ManagedIdentityRegistry.cs:15-17 | a new registry has the system-assigned identity as fallback and no entries |
| ManagedIdentity.ManagedIdentityRegistry.SetAll | src/FredrikHr.Extensions.DependencyInjection.AzureIdentity/ManagedIdentityRegistry.cs:19-27 | a null identity fails with ArgumentNullException; otherwise only the fallback changes |
| ManagedIdentity.ManagedIdentityRegistry.Set | src/FredrikHr.Extensions.DependencyInjection.AzureIdentity/ManagedIdentityRegistry.cs:29-38 | a null identity fails with ArgumentNullException; otherwise the name's entry (null read as the default name) is set and nothing else changes |
| ManagedIdentity.ManagedIdentityRegistry.Get | src/FredrikHr.Extensions.DependencyInjection.AzureIdentity/ManagedIdentityRegistry.cs:40-49 | the identity the name resolves to |
| ManagedIdentity.ManagedIdentityRegistry.Unset | src/FredrikHr.Extensions.DependencyInjection.AzureIdentity/ManagedIdentityRegistry.cs:51-58 | only the name's entry (null read as the default name) is removed |
| ManagedIdentity.InitiallySystemAssigned | src/FredrikHr.Extensions.DependencyInjection.AzureIdentity/ManagedIdentityRegistry.cs:15 | a new registry resolves every name to the system-assigned identity |
| ManagedIdentity.SetThenResolve | src/FredrikHr.Extensions.DependencyInjection.AzureIdentity/ManagedIdentityRegistry.cs:29-49 | after Set(n, id), n resolves to id and every other name as before |
| ManagedIdentity.SetAllKeepsEntries | src/FredrikHr.Extensions.DependencyInjection.AzureIdentity/ManagedIdentityRegistry.cs:19-48 | after SetAll, names with an entry still resolve to it and the others to the new fallback |
| ManagedIdentity.UnsetThenResolve | src/FredrikHr.Extensions.DependencyInjection.AzureIdentity/ManagedIdentityRegistry.cs:51-58 | after Unset(n), n resolves to the fallback and other names as before; unsetting an absent name changes nothing |
| ManagedIdentity.NullNameIsDefaultName | src/FredrikHr.Extensions.DependencyInjection.AzureIdentity/ManagedIdentityRegistry.cs:42 | a null name and the default name resolve alike |
| OptionsBag.GetOptions | src/FredrikHr.Extensions.DependencyInjection.Msal/MsalHttpAuthorizationExtensions.cs:9-27 | a null request fails with ArgumentNullException; otherwise the request's option dictionary |
| OptionsBag.TryGetOptionByType | src/FredrikHr.Extensions.DependencyInjection.Msal/MsalHttpAuthorizationExtensions.cs:29-49 | found exactly when the type's full-name key holds null or an instance of the type; a value is returned only for an instance, and it is the stored one |
| OptionsBag.SetOptionByType | src/FredrikHr.Extensions.DependencyInjection.Msal/MsalHttpAuthorizationExtensions.cs:66-75 | the type's key is set to the value (replacing any old one) and no other key changes |
| OptionsBag.AddOptionByType | src/FredrikHr.Extensions.DependencyInjection.Msal/MsalHttpAuthorizationExtensions.cs:77-86 | an existing key fails with a duplicate-key error and leaves the dictionary alone; otherwise the key is added |
| OptionsBag.SetThenTryGet | src/FredrikHr.Extensions.DependencyInjection.Msal/MsalHttpAuthorizationExtensions.cs:29-75 | after a set, an instance of the type or null reads back as stored; any other value is not found |
| OptionsBag.GetByType | src/FredrikHr.Extensions.DependencyInjection.Msal/MsalHttpAuthorizationExtensions.cs:98-119 | an instance of the type stored under its key, else null |
| OptionsBag.GetServiceProvider | src/FredrikHr.Extensions.DependencyInjection.Msal/MsalHttpAuthorizationExtensions.cs:103-109 | the stored scope's provider when there is one, else a directly stored provider, else null |
| OptionsBag.ScopeProviderPreferred | src/FredrikHr.Extensions.DependencyInjection.Msal/MsalHttpAuthorizationExtensions.cs:103-109 | a scope with a provider wins over a provider stored directly |
| OptionsBag.GetMsalAccountOfResponse | src/FredrikHr.Extensions.DependencyInjection.Msal/MsalHttpAuthorizationExtensions.cs:121-131 | a null response or a response without a request fails with ArgumentNullException; otherwise the request's account |
| OptionsBag.GetStringOption | src/FredrikHr.Extensions.DependencyInjection.Msal/MsalHttpAuthorizationExtensions.cs:140-143 | the value under the key when it is a string, else null |
| OptionsBag.SetStringOption | src/FredrikHr.Extensions.DependencyInjection.Msal/MsalHttpAuthorizationExtensions.cs:135-138 | the key is set to the string and no other key changes |
| OptionsBag.GetCredentialOption | src/FredrikHr.Extensions.DependencyInjection.Msal/MsalHttpAuthorizationExtensions.cs:286-294 | the value under the credential key when it is a credential, else null |
| OptionsBag.SetCredentialOption | src/FredrikHr.Extensions.DependencyInjection.Msal/MsalHttpAuthorizationExtensions.cs:276-284 | the credential key is set to a credential of the user name and password, and no other key changes |
| OptionsBag.StringOptionRoundTrip | src/FredrikHr.Extensions.DependencyInjection.Msal/MsalHttpAuthorizationExtensions.cs:214-254 | a string set under resource, login-hint or authorization-code reads back, and the other two keys are unaffected |
| OptionsBag.StringKeysDistinct | src/FredrikHr.Extensions.DependencyInjection.Msal/MsalHttpAuthorizationExtensions.cs:133-266 | the five option keys are pairwise distinct |
| OptionsBag.NonStringReadsNull | src/FredrikHr.Extensions.DependencyInjection.Msal/MsalHttpAuthorizationExtensions.cs:140-143 | a non-string value under a string key reads back as null |
| OptionsBag.GetMsalScopes | src/FredrikHr.Extensions.DependencyInjection.Msal/MsalHttpAuthorizationExtensions.cs:201-212 | always a string enumerable: the stored enumerable itself, a one-element collection for a stored string, an empty array otherwise |
| OptionsBag.SetMsalScopes | src/FredrikHr.Extensions.DependencyInjection.Msal/MsalHttpAuthorizationExtensions.cs:147-150 | the scopes key is set and no other key changes |
| OptionsBag.CombineAsWritten | src/FredrikHr.Extensions.DependencyInjection.Msal/MsalHttpAuthorizationExtensions.cs:152-199 | combining fails with NotSupportedException exactly when the existing scopes are read-only and something is added; otherwise existing followed by added |
| OptionsBag.AddEach | src/FredrikHr.Extensions.DependencyInjection.Msal/MsalHttpAuthorizationExtensions.cs:169-172 | each scope is appended to a list in order; the first Add on a read-only collection fails with NotSupportedException |
| OptionsBag.AddMsalScopes | src/FredrikHr.Extensions.DependencyInjection.Msal/MsalHttpAuthorizationExtensions.cs:152-175 | fails exactly when the combination as written fails, leaving the options alone; otherwise only the scopes key changes, the stored scopes are existing followed by added (a null argument adds none), and an existing list or collection is the very object stored again, else a fresh list is stored |
| OptionsBag.AddMsalScopesSpan | src/FredrikHr.Extensions.DependencyInjection.Msal/MsalHttpAuthorizationExtensions.cs:177-199 | the same outcome for the span overload, which adds one scope at a time: only the scopes key changes, and an existing list or collection is extended in place rather than replaced |
| OptionsBag.AddScopesWithoutExistingFails | src/FredrikHr.Extensions.DependencyInjection.Msal/MsalHttpAuthorizationExtensions.cs:152-212 | with no stored scopes, or a single stored string, adding any scope fails, because the default is a read-only array |
| OptionsBag.AddMsalScopesCombined | src/FredrikHr.Extensions.DependencyInjection.Msal/MsalHttpAuthorizationExtensions.cs:152-175 | corrected: whatever the existing scopes are, the stored scopes become a list of existing followed by added, and no other key changes |
| OptionsPipeline.Validated | src/FredrikHr.MsExtOptions.Helpers/ConfigurableServiceDescriptor.cs:51-56 | the instance exactly when there are no failures; otherwise a validation error carrying name ?? DefaultName and every failure |
| OptionsPipeline.RunSetups | src/FredrikHr.MsExtOptions.Helpers/ConfigurableServiceDescriptor.cs:27-37 | the setups applied in registration order: a named setup with the name, an unnamed one only when the gate admits the name |
| OptionsPipeline.RunPostConfigures | src/FredrikHr.MsExtOptions.Helpers/ConfigurableServiceDescriptor.cs:38-41 | every post-configure applied in registration order with the name |
| OptionsPipeline.CollectFailures | src/FredrikHr.MsExtOptions.Helpers/ConfigurableServiceDescriptor.cs:42-50 | the failures of every failed, non-null result, concatenated in validator order |
| OptionsPipeline.Factory | src/FredrikHr.MsExtOptions.Helpers/ConfigurableServiceDescriptor.cs:12-22 | a null createInstance fails with ArgumentNullException; otherwise a factory bound to createInstance and the name |
| OptionsPipeline.CreateConfiguredImplementation | src/FredrikHr.MsExtOptions.Helpers/ConfigurableServiceDescriptor.cs:24-57 | create, then setups (unnamed ones only for the default name), then post-configures, then the validation verdict on the configured instance |
| OptionsPipeline.CacheHelperFactory.constructor | src/FredrikHr.Extensions.DependencyInjection.Msal/MsalCacheHelperFactory.cs:26-30 | a null validator list becomes an empty one |
| OptionsPipeline.CacheHelperFactory.CreateAsync | src/FredrikHr.Extensions.DependencyInjection.Msal/MsalCacheHelperFactory.cs:40-81 | null setup and post-configure lists act as empty; unnamed setups run for the default name and for null; the created instance is returned exactly when validation finds no failure |
| OptionsPipeline.NewConfigureAllOptions | src/FredrikHr.Extensions.Options.Helpers/ConfigureAllOptions.cs:3-8 | a null delegate fails with ArgumentNullException; otherwise the delegate is kept |
| OptionsPipeline.NewConfigureAllOptionsWithDependency | src/FredrikHr.Extensions.Options.Helpers/ConfigureAllOptions.cs:21-27 | a null delegate fails with ArgumentNullException; otherwise the delegate and dependency are kept |
| OptionsPipeline.NewConfigureAllNamedOptions | src/FredrikHr.Extensions.Options.Helpers/ConfigureAllNamedOptions.cs:3-9 | a null delegate fails with ArgumentNullException; otherwise the delegate and dependency are kept |
| OptionsPipeline.UnnamedConfigureForwarding | src/FredrikHr.Extensions.Options.Helpers/ConfigureAllNamedOptions.cs:12-19 | Configure(o) forwards a null name in both ConfigureAllOptions classes (the dependency third) but the default name in ConfigureAllNamedOptions (the dependency second) |
| OptionsPipeline.UnnamedForwardingDiffers | src/FredrikHr.Extensions.Options.Helpers/ConfigureAllNamedOptions.cs:12-19 | one delegate that tells a null name from the default name gives different results through the unnamed Configure of ConfigureAllOptions and of ConfigureAllNamedOptions; the latter agrees with the former configured for the default name |
| OptionsPipeline.InheritedConfigureAll | src/FredrikHr.Extensions.Options.Helpers/InheritedConfigureAllOptions.cs:9-19 | nothing for the same type; otherwise every base setup, named ones with the caller's name (null included), unnamed ones always |
| OptionsPipeline.InheritedConfigureAllUnnamed | src/FredrikHr.Extensions.Options.Helpers/InheritedConfigureAllOptions.cs:21 | Configure(options) acts as Configure(null, options) |
| OptionsPipeline.InheritedPostConfigureAll | src/FredrikHr.Extensions.Options.Helpers/InheritedPostConfigureAllOptions.cs:9-16 | nothing for the same type; otherwise every base post-configure in order with the caller's name |
| OptionsPipeline.InheritedConfigureNamed | src/FredrikHr.Extensions.Options.Helpers/InheritedConfigureNamedOptions.cs:5-32 | only for its bound name (or every name when bound to null), and not for the same type: every resolved base setup, named ones with the bound name, unnamed ones always |
| OptionsPipeline.InheritedPostConfigureNamed | src/FredrikHr.Extensions.Options.Helpers/InheritedPostConfigureNamedOptions.cs:5-31 | for its bound name, or every name when bound to null, and not for the same type: every resolved base post-configure with the bound name |
| OptionsPipeline.ServiceCollection.constructor | src/FredrikHr.Extensions.Options.Helpers/OptionsBuilderExtensions.cs:7-9 | a new service collection has no registrations |
| OptionsPipeline.ConfigureAllNamed | src/FredrikHr.Extensions.Options.Helpers/OptionsBuilderExtensions.cs:70-90 | a null collection fails with ArgumentNullException; otherwise exactly one registration building ConfigureAllNamedOptions from the resolved dependency is appended, and the same collection is returned |
| OptionsPipeline.PostConfigureAllNamed | src/FredrikHr.Extensions.Options.Helpers/OptionsBuilderExtensions.cs:92-112 | the same for one post-configure registration |
| OptionsPipeline.ConfigureAllInherited | src/FredrikHr.Extensions.Options.Helpers/OptionsBuilderExtensions.cs:7-41 | a null collection fails; the same type registers nothing; otherwise one registration whose setup replays the base setups with the name, unnamed ones only for the default name |
| OptionsPipeline.PostConfigureAllInherited | src/FredrikHr.Extensions.Options.Helpers/OptionsBuilderExtensions.cs:43-68 | a null collection fails; the same type registers nothing; otherwise one registration that runs every base post-configure with the name |
| OptionsPipeline.OptionsBuilder.constructor | src/FredrikHr.MsExtOptions.Helpers/OptionsBuilderExtensions.cs:5-7 | a builder's name is the given name or the default name |
| OptionsPipeline.UseInheritedConfigure | src/FredrikHr.MsExtOptions.Helpers/OptionsBuilderExtensions.cs:5-34 | a null builder fails; the same type registers nothing; otherwise one setup replaying the base setups for the builder's name; the same builder is returned |
| OptionsPipeline.UseInheritedPostConfigure | src/FredrikHr.MsExtOptions.Helpers/OptionsBuilderExtensions.cs:36-59 | a null builder fails; the same type registers nothing; otherwise one post-configure replaying the base ones for the builder's name |
| OptionsPipeline.ApplySetupsAppend | src/FredrikHr.MsExtOptions.Helpers/ConfigurableServiceDescriptor.cs:27-37 | running two setup lists in turn is running their concatenation |
| OptionsPipeline.ApplyPostsAppend | src/FredrikHr.MsExtOptions.Helpers/ConfigurableServiceDescriptor.cs:38-41 | running two post-configure lists in turn is running their concatenation |
| OptionsPipeline.GatesAgreeingOnNameAgree | src/FredrikHr.Extensions.DependencyInjection.Msal/MsalCacheHelperFactory.cs:50-57 | two gates that agree on whether unnamed setups run for a name configure alike |
| OptionsPipeline.NamedOnly | src/FredrikHr.MsExtOptions.Helpers/ConfigurableServiceDescriptor.cs:29-36 | the named setups of a list keep their order and are all named |
| OptionsPipeline.ClosedGateSkipsUnnamed | src/FredrikHr.MsExtOptions.Helpers/ConfigurableServiceDescriptor.cs:33-36 | when unnamed setups may not run for a name, the result is that of the named setups alone |
| OptionsPipeline.NullNameDescriptorAndCacheFactoryDiffer | src/FredrikHr.Extensions.DependencyInjection.Msal/MsalCacheHelperFactory.cs:54 | for a null name the descriptor skips every unnamed setup while the cache helper factory runs them; for the default name the two agree |
| OptionsPipeline.NamedOnlyIgnoresGate | src/FredrikHr.MsExtOptions.Helpers/ConfigurableServiceDescriptor.cs:29-32 | a list of named setups does not depend on the gate |
| OptionsPipeline.FailuresAppend | src/FredrikHr.MsExtOptions.Helpers/ConfigurableServiceDescriptor.cs:42-50 | the failures of two validator lists are those of each in turn |
| OptionsPipeline.FailuresEmptyIff | src/FredrikHr.MsExtOptions.Helpers/ConfigurableServiceDescriptor.cs:45-51 | validation passes exactly when no validator returns a failed result with failures |
| OptionsPipeline.BuilderReplayActsForItsName | src/FredrikHr.MsExtOptions.Helpers/OptionsBuilderExtensions.cs:18-31 | the builder's replay runs the base setups and post-configures for its own name only and leaves every other name untouched |
| Logging.EventIdText | src/FredrikHr.MsExtLogging.TUnit/TUnitLogger.cs:132 | an event id's text is its name when it has one, else its number in decimal; it is empty exactly when the name is empty |
| TUnitLogging.LevelText | src/FredrikHr.MsExtLogging.TUnit/TUnitLogger.cs:115-118 | the four-letter tag from the table for levels 0 to 5, else the number in the "0000" format (a sign or a digit first) |
| TUnitLogging.LevelTextInjective | src/FredrikHr.MsExtLogging.TUnit/TUnitLogger.cs:5-12 | different levels never share a level text |
| TUnitLogging.BeginScope | src/FredrikHr.MsExtLogging.TUnit/TUnitLogger.cs:16-19 | no scope is ever returned |
| TUnitLogging.IsEnabled | src/FredrikHr.MsExtLogging.TUnit/TUnitLogger.cs:21 | every level with a tag in the level table is enabled, and None is the only level that is not (the same in src/FredrikHr.Extensions.Hosting.TUnit/TUnitLogger.cs:21) |
| TUnitLogging.FormatLineShape | src/FredrikHr.Extensions.Hosting.TUnit/TUnitLogger.cs:115-136 | a line opens with "[level]", then "[category]" when the category is non-empty; it ends with " message" and a line break exactly when the message is non-empty, else with ']' |
| TUnitLogging.GetContextWriter | src/FredrikHr.MsExtLogging.TUnit/TUnitLogger.cs:99-104 | levels below Error go to the output writer; Error and above go to the error writer |
| TUnitLogging.WriteLine | src/FredrikHr.Extensions.Hosting.TUnit/TUnitLogger.cs:115-136 | the writer receives exactly the formatted line, built part by part |
| TUnitLogging.TUnitLogger.constructor | src/FredrikHr.MsExtLogging.TUnit/TUnitLogger.cs:3-14 | the logger keeps its name |
| TUnitLogging.TUnitLogger.Log | src/FredrikHr.MsExtLogging.TUnit/TUnitLogger.cs:42-64 | the writer chosen by level receives the line with the level text, no category part, the event part and the formatted message |
| TUnitLogging.HostingTUnitLogger.constructor | src/FredrikHr.Extensions.Hosting.TUnit/TUnitLogger.cs:3-14 | the logger keeps its name |
| TUnitLogging.HostingTUnitLogger.Log | src/FredrikHr.Extensions.Hosting.TUnit/TUnitLogger.cs:42-64 | the output writer receives the line with the level text, the logger's name as category, the event part and the message |
| MsalTraceListener.TraceEvent | src/FredrikHr.Extensions.DependencyInjection.Msal/MsalCacheLoggerTraceListener.cs:31-56 | the logger receives, in table order, one entry per row whose mask meets the event type and whose level is enabled, with the event id and the message |
| MsalTraceListener.LogThroughTable | src/FredrikHr.Extensions.DependencyInjection.Msal/MsalCacheLoggerTraceListener.cs:46-55 | the loop over the mapping table logs, in table order, exactly the entries of the rows whose mask meets the event type and whose level the logger accepts |
| MsalTraceListener.MappedEntriesMembership | src/FredrikHr.Extensions.DependencyInjection.Msal/MsalCacheLoggerTraceListener.cs:33-40 | an entry is logged exactly when some firing row produces it |
| MsalTraceListener.OnlyRowFires | src/FredrikHr.Extensions.DependencyInjection.Msal/MsalCacheLoggerTraceListener.cs:33-40 | when exactly one row fires, exactly its entry is logged |
| MsalTraceListener.NoRowFires | src/FredrikHr.Extensions.DependencyInjection.Msal/MsalCacheLoggerTraceListener.cs:33-40 | when no row fires, nothing is logged |
| MsalTraceListener.KnownEventLogsItsLevel | src/FredrikHr.Extensions.DependencyInjection.Msal/MsalCacheLoggerTraceListener.cs:12-17 | Verbose, Information, Warning, Error and Critical each log once, at Debug, Information, Warning, Error and Critical, when that level is enabled |
| MsalTraceListener.RowMasks | src/FredrikHr.Extensions.DependencyInjection.Msal/MsalCacheLoggerTraceListener.cs:12-24 | the table has six rows: the five named event types to their levels, and the complement of the five to Trace |
| MsalTraceListener.MaskFacts | src/FredrikHr.Extensions.DependencyInjection.Msal/MsalCacheLoggerTraceListener.cs:18-23 | an event type without any of the five named bits meets only the complement row; one with some named bit meets one of the five rows |
| MsalTraceListener.OtherEventLogsAtTrace | src/FredrikHr.Extensions.DependencyInjection.Msal/MsalCacheLoggerTraceListener.cs:18-23 | a non-zero event type outside the five named bits (Start, Stop, ...) logs once, at Trace |
| MsalTraceListener.NonZeroEventIsLogged | src/FredrikHr.MsExtDependencyInjection.Msal/MsalCacheLoggerTraceListener.cs:17-38 | with every level enabled, a non-zero event type logs at least once, and a combined type such as Warning and Error logs at each matching level |
| MsalTraceListener.SomeRowMeets | src/FredrikHr.MsExtDependencyInjection.Msal/MsalCacheLoggerTraceListener.cs:17-30 | every non-zero event type meets the mask of some row |
| MsalTraceListener.BufferedRunKeepsText | src/FredrikHr.Extensions.DependencyInjection.Msal/MsalCacheLoggerTraceListener.cs:58-76 | over any run of Write and WriteLine calls, the logged lines followed by the buffer hold exactly the old buffer followed by every non-null message |
| MsalTraceListener.BufferedRunLogsPerWriteLine | src/FredrikHr.Extensions.DependencyInjection.Msal/MsalCacheLoggerTraceListener.cs:58-76 | the buffered listener logs one line per WriteLine with a non-null message, and none for Write |
| MsalTraceListener.BufferedTraceListener.constructor | src/FredrikHr.Extensions.DependencyInjection.Msal/MsalCacheLoggerTraceListener.cs:8-26 | a new listener has an empty buffer |
| MsalTraceListener.BufferedTraceListener.Write | src/FredrikHr.Extensions.DependencyInjection.Msal/MsalCacheLoggerTraceListener.cs:58-63 | a non-null message is appended to the buffer; nothing is logged |
| MsalTraceListener.BufferedTraceListener.WriteLine | src/FredrikHr.Extensions.DependencyInjection.Msal/MsalCacheLoggerTraceListener.cs:65-82 | a non-null message is logged at Trace under event 1 "Write" after the buffered text, and the buffer is emptied; a null message changes nothing |
| MsalTraceListener.BufferedTraceListener.Trace | src/FredrikHr.Extensions.DependencyInjection.Msal/MsalCacheLoggerTraceListener.cs:31-56 | the TraceEvent mapping through this listener's logger |
| MsalTraceListener.UnbufferedRunKeepsText | src/FredrikHr.MsExtDependencyInjection.Msal/MsalCacheLoggerTraceListener.cs:41-63 | the unbuffered listener's entries carry every non-null message in order, one entry per call |
| MsalTraceListener.UnbufferedTraceListener.constructor | src/FredrikHr.MsExtDependencyInjection.Msal/MsalCacheLoggerTraceListener.cs:7-11 | the listener keeps its logger |
| MsalTraceListener.UnbufferedTraceListener.Write | src/FredrikHr.MsExtDependencyInjection.Msal/MsalCacheLoggerTraceListener.cs:41-51 | a non-null message is logged at Trace under event 1 "Write"; a null one logs nothing |
| MsalTraceListener.UnbufferedTraceListener.WriteLine | src/FredrikHr.MsExtDependencyInjection.Msal/MsalCacheLoggerTraceListener.cs:53-63 | a non-null message is logged at Trace under event 2 "WriteLine"; a null one logs nothing |
| MsalTraceListener.UnbufferedTraceListener.Trace | src/FredrikHr.MsExtDependencyInjection.Msal/MsalCacheLoggerTraceListener.cs:15-39 | the same mapping for the format overload, with the table built on each call |
| AzureLogging.ToLogLevel | src/FredrikHr.Extensions.DependencyInjection.AzureCore/AzureEventSourceLoggingForwarder.cs:41-46 | LogAlways maps to None, Critical to Critical, Error to Error, Warning to Warning, Informational to Information and Verbose to Debug |
| AzureLogging.ToLogLevelReverses | src/FredrikHr.Extensions.DependencyInjection.AzureCore/AzureEventSourceLoggingForwarder.cs:41-46 | a more verbose event level maps to a strictly lower log level, distinct event levels map to distinct log levels, and LogAlways through Verbose land between Debug and None |
| AzureLogging.ResolveFactory | src/FredrikHr.Extensions.DependencyInjection.AzureCore/AzureEventSourceLoggingForwarder.cs:25-30 | an already resolved factory is kept; otherwise the service's factory; otherwise the null factory |
| AzureLogging.GetOrAdd | src/FredrikHr.Extensions.DependencyInjection.AzureCore/AzureEventSourceLoggingForwarder.cs:15-16 | the cache ends up with the name's case-folded key mapped to the returned logger; existing entries stay; a new logger is created only for a missing key |
| AzureLogging.GetOrAddIgnoresCase | src/FredrikHr.Extensions.DependencyInjection.AzureCore/AzureEventSourceLoggingForwarder.cs:15-16 | names that differ only in case share one logger, created under the first spelling |
| AzureLogging.ForwardedEntries | src/FredrikHr.Extensions.DependencyInjection.AzureCore/AzureEventSourceLoggingForwarder.cs:32-39 | at most one entry is forwarded, exactly when the mapped level is enabled, carrying the mapped level, the event's id and name, and the message |
| AzureLogging.ProviderCreateLogger | src/FredrikHr.Extensions.DependencyInjection.AzureCore/AzureEventSourceLoggingForwarder.cs:51-52 | the provider's own loggers accept no level |
| AzureLogging.NoFactoryForwardsNothing | src/FredrikHr.Extensions.DependencyInjection.AzureCore/AzureEventSourceLoggingForwarder.cs:27-39 | without a logger factory service no event is ever forwarded |
| AzureLogging.AzureEventSourceLoggingForwarder.constructor | src/FredrikHr.Extensions.DependencyInjection.AzureCore/AzureEventSourceLoggingForwarder.cs:18-23 | a new forwarder has no resolved factory, an empty cache and has forwarded nothing |
| AzureLogging.AzureEventSourceLoggingForwarder.CreateLogger | src/FredrikHr.Extensions.DependencyInjection.AzureCore/AzureEventSourceLoggingForwarder.cs:25-30 | the factory is resolved once, and the logger is created from it for the event source's name |
| AzureLogging.AzureEventSourceLoggingForwarder.OnEventWritten | src/FredrikHr.Extensions.DependencyInjection.AzureCore/AzureEventSourceLoggingForwarder.cs:32-39 | the source's logger is looked up ignoring case or created and cached, and the event is forwarded through it when its mapped level is enabled; the cache invariant is kept |
| AzureLogging.AzureEventSourceLoggingForwarder.Dispose | src/FredrikHr.Extensions.DependencyInjection.AzureCore/AzureEventSourceLoggingForwarder.cs:54-58 | the logger cache is emptied |
| SharePointExecutor.MethodFromName | src/FredrikHr.Extensions.DependencyInjection.SharePointOnline/HttpClientWebRequestExecutor.cs:25-46 | null fails with ArgumentNullException; a known method name in any case gives the canonical method; otherwise the empty string fails with ArgumentException, a non-token with FormatException, and any other token is kept as given |
| SharePointExecutor.MethodFromNameIdempotent | src/FredrikHr.Extensions.DependencyInjection.SharePointOnline/HttpClientWebRequestExecutor.cs:37-46 | setting the method the getter returns gives the same method again |
| SharePointExecutor.KnownMethodIgnoresCase | src/FredrikHr.Extensions.DependencyInjection.SharePointOnline/HttpClientWebRequestExecutor.cs:25-35 | names of a known method that differ only in case give the same canonical method |
| SharePointExecutor.KeepAliveAsWrittenInverts | src/FredrikHr.Extensions.DependencyInjection.SharePointOnline/HttpClientWebRequestExecutor.cs:47-58 | as written, reading keep-alive back after setting it gives the opposite value |
| SharePointExecutor.KeepAlive | src/FredrikHr.Extensions.DependencyInjection.SharePointOnline/HttpClientWebRequestExecutor.cs:47-58 | corrected: keep-alive holds exactly when the connection is not explicitly closed |
| SharePointExecutor.KeepAliveRoundTrip | src/FredrikHr.Extensions.DependencyInjection.SharePointOnline/HttpClientWebRequestExecutor.cs:47-58 | corrected: reading keep-alive back gives what was set, and an untouched request keeps the connection alive |
| SharePointExecutor.RoutedMembership | src/FredrikHr.Extensions.DependencyInjection.SharePointOnline/HttpClientWebRequestExecutor.cs:116-122 | a request header goes to the content exactly when its name is a well-known content header, and to the message otherwise |
| SharePointExecutor.RoutedPartitions | src/FredrikHr.Extensions.DependencyInjection.SharePointOnline/HttpClientWebRequestExecutor.cs:116-122 | routing sends every request header to exactly one side, losing and duplicating none |
| SharePointExecutor.RoutingIgnoresCase | src/FredrikHr.Extensions.DependencyInjection.SharePointOnline/HttpClientWebRequestExecutor.cs:148-162 | header names that differ only in case go to the same side |
| SharePointExecutor.ValuesOf | src/FredrikHr.Extensions.DependencyInjection.SharePointOnline/HttpClientWebRequestExecutor.cs:192-195 | one header per value, in order, all under the header's name |
| SharePointExecutor.FlattenMembership | src/FredrikHr.Extensions.DependencyInjection.SharePointOnline/HttpClientWebRequestExecutor.cs:185-197 | every value of every response header appears under its header's name, and nothing else does |
| SharePointExecutor.AddHeaders | src/FredrikHr.Extensions.DependencyInjection.SharePointOnline/HttpClientWebRequestExecutor.cs:185-197 | the collection grows by one header per value, names in order and values in order |
| SharePointExecutor.AddValues | src/FredrikHr.Extensions.DependencyInjection.SharePointOnline/HttpClientWebRequestExecutor.cs:192-195 | the inner loop appends one header per value of a response header, in order, under that header's name |
| SharePointExecutor.RouteHeaders | src/FredrikHr.Extensions.DependencyInjection.SharePointOnline/HttpClientWebRequestExecutor.cs:116-122 | the loop sends each header, in order, to the content headers or to the message headers |
| SharePointExecutor.PrepareRequest | src/FredrikHr.Extensions.DependencyInjection.SharePointOnline/HttpClientWebRequestExecutor.cs:113-132 | each request header is appended to the message or to the content headers; the content is kept exactly when there is content and the method is neither GET nor HEAD, ignoring case |
| SharePointExecutor.HttpClientWebRequestExecutor.constructor | src/FredrikHr.Extensions.DependencyInjection.SharePointOnline/HttpClientWebRequestExecutor.cs:71-83 | a new executor holds a POST to the URL with content attached and has sent nothing |
| SharePointExecutor.HttpClientWebRequestExecutor.GetRequestMethod | src/FredrikHr.Extensions.DependencyInjection.SharePointOnline/HttpClientWebRequestExecutor.cs:39 | the method read back is a name the setter accepts and stores unchanged |
| SharePointExecutor.HttpClientWebRequestExecutor.SetRequestMethod | src/FredrikHr.Extensions.DependencyInjection.SharePointOnline/HttpClientWebRequestExecutor.cs:40-45 | the method becomes the one derived from the name, or the call fails with that error and the method is unchanged; the stored method stays one the setter keeps as it is |
| SharePointExecutor.HttpClientWebRequestExecutor.GetRequestKeepAlive | src/FredrikHr.Extensions.DependencyInjection.SharePointOnline/HttpClientWebRequestExecutor.cs:47-53 | corrected getter: keep-alive holds exactly when ConnectionClose is not set to true |
| SharePointExecutor.HttpClientWebRequestExecutor.SetRequestKeepAlive | src/FredrikHr.Extensions.DependencyInjection.SharePointOnline/HttpClientWebRequestExecutor.cs:54-57 | the connection-close header is set to the negated value, and the corrected getter reads the value back |
| SharePointExecutor.HttpClientWebRequestExecutor.GetRequestContentType | src/FredrikHr.Extensions.DependencyInjection.SharePointOnline/HttpClientWebRequestExecutor.cs:17-19 | reading the content type before it was set fails with NullReferenceException; otherwise the stored type |
| SharePointExecutor.HttpClientWebRequestExecutor.SetRequestContentType | src/FredrikHr.Extensions.DependencyInjection.SharePointOnline/HttpClientWebRequestExecutor.cs:17-20 | null fails with ArgumentNullException, the empty string with ArgumentException; otherwise the content type is stored |
| SharePointExecutor.HttpClientWebRequestExecutor.SendRequest | src/FredrikHr.Extensions.DependencyInjection.SharePointOnline/HttpClientWebRequestExecutor.cs:113-138 | every request header is added to the content or to the message; a GET or HEAD loses its content and faults the request stream; a message not yet sent is sent, and one already sent fails with InvalidOperationException and is not sent again, so it goes out at most once |
| SharePointExecutor.HttpClientWebRequestExecutor.ExecuteAsync | src/FredrikHr.Extensions.DependencyInjection.SharePointOnline/HttpClientWebRequestExecutor.cs:87-102 | sends only if nothing was sent, and the message goes out at most once; a status outside 200-299 fails and leaves the kept response as it was; otherwise the response is kept with its message headers followed by its content headers |
| SharePointExecutor.HttpClientWebRequestExecutor.GetRequestStream | src/FredrikHr.Extensions.DependencyInjection.SharePointOnline/HttpClientWebRequestExecutor.cs:104-111 | sends, with the header and content changes of SendRequest; fails with InvalidOperationException when the message was already sent, and otherwise exactly when the request stream was faulted, as it always is for GET and HEAD |
| SharePointExecutor.HttpClientWebRequestExecutor.StatusCode | src/FredrikHr.Extensions.DependencyInjection.SharePointOnline/HttpClientWebRequestExecutor.cs:59-60 | fails with InvalidOperationException exactly when no response has been kept; otherwise its status code |
| SharePointExecutor.HttpClientWebRequestExecutor.GetResponseStream | src/FredrikHr.Extensions.DependencyInjection.SharePointOnline/HttpClientWebRequestExecutor.cs:140-146 | fails with InvalidOperationException exactly when no response has been kept; otherwise its body |
| SharePointExecutor.HttpClientWebRequestExecutor.ResponseContentType | src/FredrikHr.Extensions.DependencyInjection.SharePointOnline/HttpClientWebRequestExecutor.cs:62-63 | null before a response is kept; otherwise the response's content type |
| SharePointExecutor.NewExecutor | src/FredrikHr.Extensions.DependencyInjection.SharePointOnline/HttpClientWebRequestExecutor.cs:71-75 | a null URL or a null client fails with ArgumentNullException; otherwise a fresh executor holding a POST, with nothing sent and a method name the setter keeps |
| SharePointExecutor.ResponseOnlyAfterSuccess | src/FredrikHr.Extensions.DependencyInjection.SharePointOnline/HttpClientWebRequestExecutor.cs:59-102 | a new executor has no status code; after ExecuteAsync it has the response's status code exactly when that status is a success |
| SharePointExecutor.StreamRequestedTwiceFails | src/FredrikHr.Extensions.DependencyInjection.SharePointOnline/HttpClientWebRequestExecutor.cs:87-111 | on a fresh POST executor the first request-stream call succeeds and a second one fails with InvalidOperationException, as does a request-stream call after ExecuteAsync |
| SharePointExecutor.RequestPropertiesReadBack | src/FredrikHr.Extensions.DependencyInjection.SharePointOnline/HttpClientWebRequestExecutor.cs:37-58 | a method name the setter accepts reads back in its canonical form and a rejected one leaves POST; a fresh executor keeps the connection alive, and the corrected keep-alive getter reads back what was set |

## Left out

- Concurrency: the reader-writer lock of the resource registry, the `lock` of the managed-identity registry, and the atomicity of the forwarder's `ConcurrentDictionary`. Every operation is modelled as one sequential step.
- The trace listener's `AsyncLocal` buffer is one field. Each asynchronous flow having its own buffer is not modelled.
- `async`/`await` and cancellation. Starting the host and waiting for its shutdown are not modelled. Of stopping it, the model keeps only whether `StopAsync` is reached, as `Execution.hostStopped`.
- Assembly loading, type activation by reflection and file I/O of the hosting-startup loader. The model produces the list of load steps only.
- The unsafe-accessor path that reaches the `HostApplicationBuilder` inside a command-line configuration is not modelled.
- The de-duplicating `HashSet` of hosting-startup names is modelled as a list in first-appearance order. The .NET set's enumeration order is unspecified.
- Case folding covers the ASCII letters a to z only. White space covers the ASCII white space, U+0085 and U+00A0. Culture-sensitive and full Unicode rules are not modelled.
- `Environment.NewLine` is fixed to a line feed.
- UseHost: the IHostBuilder overloads (`HostSymbolExtensions.cs:162` and `:180`) do not compile. `IHostCommandLineInvocation` does not meet the `IHostedCommandLineInvocation` constraint of `HostBuilderCommandLineAction`, and that class has no one-argument constructor. The action they name derives from the older `HostingCommandLineAction`, which SymbolResultAction skips, so a bound option would never reach its services. The model assumes the newer host action for the IHostBuilder kind as well.
- The .NET 6 branch of `FredrikHr.Extensions.Options.Helpers/OptionsBuilderExtensions.cs` is not modelled. It refers to an `optionsBuilder` that does not exist and cannot compile, so only the other branch is modelled.
- The overloads that take an implementation type or a factory delegate and only forward to the modelled ones are not modelled.
- URI parsing and canonical form are not modelled. A URI is a value already in canonical form, and two URIs are equal when their scheme, authority and path-and-query are equal. `Uri.IsBaseOf` is a parameter of the registry.
- TraceEvent formatting with arguments is not modelled. The format string is handed on as the message, and argument substitution is left out.
- The message-only `TraceEvent` overload of `FredrikHr.MsExtDependencyInjection.Msal/MsalCacheLoggerTraceListener.cs` is not modelled. That listener does not override it, and the base `TraceListener` implementation is not part of this model.
- The `Dispose` methods of the trace listeners and of the web-request executor are not modelled. The synchronous `Execute` wrapper, the request stream and content classes, and the response body stream are also left out.
- Merging of repeated `WebHeaderCollection` values is not modelled. A header is routed as one string.
- Failures of `TryAddWithoutValidation` are not modelled.
- AddMsalScopes: the stored scopes are modelled as a `List<string>`, a read-only collection or a plain enumerable. A stored mutable `ICollection<string>` of another kind, such as a `HashSet<string>`, is not modelled. The source extends such a collection in place through its own `Add`, so a set would drop duplicates. For it, the model does not promise "existing followed by added".
- AddMsalScopesSpan: the same gap as AddMsalScopes. A mutable `ICollection<string>` other than `List<string>` is not modelled, nor are its own `Add` semantics.
- SetRequestContentType: media-type parsing is modelled only as far as null and empty values. The `FormatException` that `MediaTypeHeaderValue` throws for a non-empty value that is not a media type is not modelled.
- SendRequest: `connectionClose` and `contentType` are fields of their own, apart from the routed `messageHeaders` and `contentHeaders`. In .NET they live in the same header stores, so a "Connection: close" or "Content-Type" entry among the request headers changes what the keep-alive and content-type getters read after the send. The model does not capture that coupling.
- Creating the `MsalCacheHelper` and its storage properties is not modelled. The factory is modelled up to the options pipeline that configures it.
- SDK client factories, reflection workarounds, trivial delegating handlers, the `PostConfigureAll*Options` forwarding classes and the test projects are not modelled.
- The HTTP send, the `ILoggerFactory` service lookup, and the loggers and writers are calls into code outside the model. They are parameters or append-only traces.

## Findings

| source | as written | input that shows it | evidently intended | confidence | as-written member | corrected member |
|---|---|---|---|---|---|---|
| src/FredrikHr.Extensions.DependencyInjection.Msal/MsalHttpAuthorizationResourceRegistry.cs:100-113 | after `RemoveAt(i)` the loop still increments `i`, so the entry that moved into slot `i` is never examined | a registry holding two consecutive entries that both match the request URI: the second survives | every matching entry is removed | not executed | ResourceRegistry.RemoveMatchingSkipsNeighbour | ResourceRegistry.AuthorizationResourceRegistry.RemoveAllMatchingEntries |
| src/FredrikHr.Extensions.DependencyInjection.Msal/MsalHttpAuthorizationExtensions.cs:152-175 | new scopes are added to the stored collection when it is an `ICollection<string>`; the default for a request without scopes is an empty array, which is read-only | a request with no stored scopes (or with a single stored string) given any scopes: `Add` throws `NotSupportedException` | the stored scopes followed by the new ones | not executed | OptionsBag.AddScopesWithoutExistingFails | OptionsBag.AddMsalScopesCombined |
| src/FredrikHr.Extensions.DependencyInjection.SharePointOnline/HttpClientWebRequestExecutor.cs:47-58 | the keep-alive setter stores `ConnectionClose = !value`, but the getter returns true unless `ConnectionClose` is false | set keep-alive to true, then read it: false | reading gives back the value that was set | not executed | SharePointExecutor.KeepAliveAsWrittenInverts | SharePointExecutor.KeepAliveRoundTrip |
