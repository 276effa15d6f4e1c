// The per-request option dictionary used by the MSAL HTTP authorization
// helpers: values stored under a type's full name, values stored under
// fixed string keys, and the list of scopes a token is requested for.

module OptionsBag {
  import opened Common

  /** The types whose full names key the type-keyed options. */
  datatype TypeTag = ServiceScopeType | ServiceProviderType | AccountType | UserAssertionType

  /** typeof(T).FullName */
  function FullName(t: TypeTag): string
  {
    match t
    case ServiceScopeType => "Microsoft.Extensions.DependencyInjection.IServiceScope"
    case ServiceProviderType => "System.IServiceProvider"
    case AccountType => "Microsoft.Identity.Client.IAccount"
    case UserAssertionType => "Microsoft.Identity.Client.UserAssertion"
  }

  /** A List<string> held in the dictionary; it can be extended in place. */
  class ScopeList {
    var items: seq<string>

    constructor (items: seq<string>)
      ensures this.items == items
    {
      this.items := items;
    }
  }

  /** The values the dictionary can hold. */
  datatype Obj =
    | Null
    | Str(s: string)
    | StringList(list: ScopeList)
      /** a string array or a compiler-made read-only collection: an
        * ICollection<string> whose Add is not supported */
    | FixedStrings(items: seq<string>)
      /** any other IEnumerable<string> */
    | LazyStrings(strings: seq<string>)
    | Credential(userName: string, password: string)
      /** an object implementing the given types; a service scope carries
        * the identity of its ServiceProvider, if it has one */
    | Instance(id: nat, types: set<TypeTag>, scopeProvider: Option<nat>)

  predicate IsInstanceOf(o: Obj, t: TypeTag)
  {
    o.Instance? && t in o.types
  }

  type Options = map<string, Obj>

  /** An HTTP request message and its option dictionary. */
  class RequestMessage {
    var options: Options

    constructor ()
      ensures options == map[]
    {
      options := map[];
    }
  }

  /** GetOptions: a null request is rejected. */
  function GetOptions(request: Option<RequestMessage>): (r: Result<Options>)
    reads if request.Some? then {request.value} else {}
    ensures request.None? <==> r == Err(ArgumentNull)
    ensures request.Some? ==> r == Ok(request.value.options)
  {
    if request.None? then Err(ArgumentNull) else Ok(request.value.options)
  }

  // ---------------------------------------------------------------------
  // Type-keyed options.

  datatype TryGet = TryGet(found: bool, value: Option<Obj>)

  /** TryGetOptionByType<T>: true with the value when the type's key holds
    * an instance of T, true with no value when it holds null, false
    * otherwise. */
  function TryGetOptionByType(options: Options, t: TypeTag): (r: TryGet)
    ensures r.found <==> FullName(t) in options && (options[FullName(t)].Null? || IsInstanceOf(options[FullName(t)], t))
    ensures r.value.Some? <==> r.found && !options[FullName(t)].Null?
    ensures r.value.Some? ==> r.value.value == options[FullName(t)] && IsInstanceOf(r.value.value, t)
  {
    var key := FullName(t);
    if key !in options then TryGet(false, None)
    else if options[key].Null? then TryGet(true, None)
    else if IsInstanceOf(options[key], t) then TryGet(true, Some(options[key]))
    else TryGet(false, None)
  }

  /** SetOptionByType<T>: stores the value under the type's key, replacing
    * what was there. AddServiceScope, AddServiceProvider, SetMsalAccount
    * and SetMsalUserAssertion are this with their types. */
  method SetOptionByType(request: RequestMessage, t: TypeTag, value: Obj)
    modifies request
    ensures request.options == old(request.options)[FullName(t) := value]
  {
    request.options := request.options[FullName(t) := value];
  }

  /** AddOptionByType<T>: Dictionary.Add, which refuses an existing key. */
  method AddOptionByType(request: RequestMessage, t: TypeTag, value: Obj) returns (r: Outcome)
    modifies request
    ensures FullName(t) in old(request.options) ==> r == Fail(DuplicateKey) && request.options == old(request.options)
    ensures FullName(t) !in old(request.options) ==> r == Pass && request.options == old(request.options)[FullName(t) := value]
  {
    if FullName(t) in request.options {
      return Fail(DuplicateKey);
    }
    request.options := request.options[FullName(t) := value];
    r := Pass;
  }

  /** Reading back what SetOptionByType stored: an instance of the type or
    * null reads back as stored; anything else is not found. */
  lemma SetThenTryGet(options: Options, t: TypeTag, value: Obj)
    ensures value.Null? ==> TryGetOptionByType(options[FullName(t) := value], t) == TryGet(true, None)
    ensures IsInstanceOf(value, t) ==> TryGetOptionByType(options[FullName(t) := value], t) == TryGet(true, Some(value))
    ensures !value.Null? && !IsInstanceOf(value, t) ==> TryGetOptionByType(options[FullName(t) := value], t) == TryGet(false, None)
  {
    var key := FullName(t);
    var m := options[key := value];
    assert key in m && m[key] == value;
  }

  /** GetServiceScope, GetMsalAccount and GetMsalUserAssertion: the value
    * TryGetOptionByType finds, or null. */
  function GetByType(options: Options, t: TypeTag): (r: Option<Obj>)
    ensures r.Some? <==> FullName(t) in options && IsInstanceOf(options[FullName(t)], t)
    ensures r.Some? ==> r.value == options[FullName(t)]
  {
    var g := TryGetOptionByType(options, t);
    if g.found then g.value else None
  }

  /** GetServiceProvider: the stored scope's ServiceProvider, else a
    * directly stored provider, else none. */
  function GetServiceProvider(options: Options): (r: Option<nat>)
    ensures
      var scope := GetByType(options, ServiceScopeType);
      scope.Some? && scope.value.scopeProvider.Some? ==> r == scope.value.scopeProvider
    ensures
      var scope := GetByType(options, ServiceScopeType);
      var provider := GetByType(options, ServiceProviderType);
      !(scope.Some? && scope.value.scopeProvider.Some?) ==> r == if provider.Some? then Some(provider.value.id) else None
  {
    var scope := GetByType(options, ServiceScopeType);
    if scope.Some? && scope.value.scopeProvider.Some? then scope.value.scopeProvider
    else
      var provider := TryGetOptionByType(options, ServiceProviderType);
      if provider.found && provider.value.Some? then Some(provider.value.value.id) else None
  }

  /** The scope's provider wins over a directly stored one. */
  lemma ScopeProviderPreferred(options: Options, scopeId: nat, types: set<TypeTag>, p: nat, direct: Obj)
    requires ServiceScopeType in types
    ensures GetServiceProvider(options[FullName(ServiceProviderType) := direct][FullName(ServiceScopeType) := Instance(scopeId, types, Some(p))]) == Some(p)
  {
  }

  /** An HTTP response, which refers back to its request. */
  class ResponseMessage {
    const requestMessage: Option<RequestMessage>

    constructor (requestMessage: Option<RequestMessage>)
      ensures this.requestMessage == requestMessage
    {
      this.requestMessage := requestMessage;
    }
  }

  /** GetMsalAccount(response): a null response, or a response without a
    * request, is rejected; otherwise the request's account. */
  function GetMsalAccountOfResponse(response: Option<ResponseMessage>): (r: Result<Option<Obj>>)
    reads if response.Some? && response.value.requestMessage.Some? then {response.value.requestMessage.value} else {}
    ensures response.None? ==> r == Err(ArgumentNull)
    ensures response.Some? && response.value.requestMessage.None? ==> r == Err(ArgumentNull)
    ensures response.Some? && response.value.requestMessage.Some? ==>
      r == Ok(GetByType(response.value.requestMessage.value.options, AccountType))
  {
    if response.None? then Err(ArgumentNull)
    else match GetOptions(response.value.requestMessage)
      case Err(e) => Err(e)
      case Ok(options) => Ok(GetByType(options, AccountType))
  }

  // ---------------------------------------------------------------------
  // String-keyed options.

  const ResourceOptionsKey := "Microsoft.Identity.Client.Resource"
  const ScopesOptionsKey := "Microsoft.Identity.Client.Scopes"
  const LoginHintOptionsKey := "Microsoft.Identity.Client.LoginHint"
  const AuthorizationCodeOptionsKey := "Microsoft.Identity.Client.AuthorizationCode"
  const UsernamePasswordCredentialOptionsKey := "Microsoft.Identity.Client.UsernamePasswordCredential"

  predicate IsStringKey(key: string)
  {
    key == ResourceOptionsKey || key == LoginHintOptionsKey || key == AuthorizationCodeOptionsKey
  }

  /** GetMsalResource, GetMsalLoginHint and GetMsalAuthorizationCode: the
    * stored value `as string`. */
  function GetStringOption(options: Options, key: string): (r: Option<string>)
    ensures r.Some? <==> key in options && options[key].Str?
    ensures r.Some? ==> r.value == options[key].s
  {
    if key in options && options[key].Str? then Some(options[key].s) else None
  }

  /** SetMsalResource, SetMsalLoginHint and SetMsalAuthorizationCode. */
  method SetStringOption(request: RequestMessage, key: string, value: string)
    requires IsStringKey(key)
    modifies request
    ensures request.options == old(request.options)[key := Str(value)]
  {
    request.options := request.options[key := Str(value)];
  }

  /** GetMsalUsernamePasswordCredential: the stored value `as
    * NetworkCredential`. */
  function GetCredentialOption(options: Options): (r: Option<Obj>)
    ensures r.Some? <==> UsernamePasswordCredentialOptionsKey in options && options[UsernamePasswordCredentialOptionsKey].Credential?
    ensures r.Some? ==> r.value == options[UsernamePasswordCredentialOptionsKey]
  {
    var key := UsernamePasswordCredentialOptionsKey;
    if key in options && options[key].Credential? then Some(options[key]) else None
  }

  /** Both SetMsalUsernamePasswordCredential overloads. */
  method SetCredentialOption(request: RequestMessage, userName: string, password: string)
    modifies request
    ensures request.options == old(request.options)[UsernamePasswordCredentialOptionsKey := Credential(userName, password)]
  {
    request.options := request.options[UsernamePasswordCredentialOptionsKey := Credential(userName, password)];
  }

  /** The string options round-trip under their own keys without touching
    * each other. */
  lemma StringOptionRoundTrip(options: Options, key: string, other: string, value: string)
    requires IsStringKey(key) && IsStringKey(other) && key != other
    ensures GetStringOption(options[key := Str(value)], key) == Some(value)
    ensures GetStringOption(options[key := Str(value)], other) == GetStringOption(options, other)
  {
  }

  /** The string keys are pairwise distinct (they differ in length), so
    * setting one never overwrites another. */
  lemma StringKeysDistinct()
    ensures ResourceOptionsKey != LoginHintOptionsKey && ResourceOptionsKey != AuthorizationCodeOptionsKey
    ensures LoginHintOptionsKey != AuthorizationCodeOptionsKey
    ensures ScopesOptionsKey != ResourceOptionsKey && ScopesOptionsKey != LoginHintOptionsKey && ScopesOptionsKey != AuthorizationCodeOptionsKey
    ensures UsernamePasswordCredentialOptionsKey != ScopesOptionsKey && !IsStringKey(UsernamePasswordCredentialOptionsKey)
  {
    assert |ResourceOptionsKey| == 34 && |ScopesOptionsKey| == 32 && |LoginHintOptionsKey| == 35;
    assert |AuthorizationCodeOptionsKey| == 43 && |UsernamePasswordCredentialOptionsKey| == 52;
  }

  /** A non-string value under a string key reads back as null. */
  lemma NonStringReadsNull(options: Options, key: string, value: Obj)
    requires !value.Str?
    ensures GetStringOption(options[key := value], key) == None
  {
  }

  // ---------------------------------------------------------------------
  // Scopes.

  predicate IsStringEnumerable(o: Obj)
  {
    o.StringList? || o.FixedStrings? || o.LazyStrings?
  }

  /** GetMsalScopes: the stored string enumerable itself, a one-element
    * read-only collection for a stored string, and an empty array
    * otherwise. */
  function GetMsalScopes(options: Options): (r: Obj)
    ensures IsStringEnumerable(r)
    ensures ScopesOptionsKey in options && IsStringEnumerable(options[ScopesOptionsKey]) ==> r == options[ScopesOptionsKey]
    ensures ScopesOptionsKey in options && options[ScopesOptionsKey].Str? ==> r == FixedStrings([options[ScopesOptionsKey].s])
    ensures !(ScopesOptionsKey in options && (IsStringEnumerable(options[ScopesOptionsKey]) || options[ScopesOptionsKey].Str?)) ==> r == FixedStrings([])
  {
    if ScopesOptionsKey !in options then FixedStrings([])
    else
      var o := options[ScopesOptionsKey];
      if IsStringEnumerable(o) then o
      else if o.Str? then FixedStrings([o.s])
      else FixedStrings([])
  }

  /** The strings an enumerable yields. */
  function Items(o: Obj): seq<string>
    reads if o.StringList? then {o.list} else {}
  {
    match o
    case StringList(list) => list.items
    case FixedStrings(items) => items
    case LazyStrings(strings) => strings
    case _ => []
  }

  method SetMsalScopes(request: RequestMessage, scopes: Obj)
    modifies request
    ensures request.options == old(request.options)[ScopesOptionsKey := scopes]
  {
    request.options := request.options[ScopesOptionsKey := scopes];
  }

  /** The outcome of AddMsalScopes as written, by the kind of the existing
    * scopes: a List or a plain enumerable ends up holding existing ++
    * added, but a read-only collection refuses the first Add. */
  function CombineAsWritten(existing: seq<string>, existingIsFixed: bool, added: seq<string>): (r: Result<seq<string>>)
    ensures r.Err? <==> existingIsFixed && added != []
    ensures r.Err? ==> r.error == NotSupported
    ensures r.Ok? ==> r.value == existing + added
  {
    if existingIsFixed && added != [] then Err(NotSupported) else Ok(existing + added)
  }

  /** The `foreach ... combinedScopes.Add(scope)` loop: appends to a List in
    * place; the first Add on a read-only collection throws. */
  method AddEach(combined: Obj, scopes: seq<string>) returns (r: Outcome)
    requires combined.StringList? || combined.FixedStrings?
    modifies if combined.StringList? then {combined.list} else {}
    ensures r.Fail? <==> combined.FixedStrings? && scopes != []
    ensures r.Fail? ==> r.error == NotSupported
    ensures combined.StringList? ==> combined.list.items == old(combined.list.items) + scopes
  {
    var i := 0;
    while i < |scopes|
      invariant 0 <= i <= |scopes|
      invariant combined.FixedStrings? ==> i == 0
      invariant combined.StringList? ==> combined.list.items == old(combined.list.items) + scopes[..i]
    {
      if combined.FixedStrings? {
        return Fail(NotSupported);
      }
      combined.list.items := combined.list.items + [scopes[i]];
      assert scopes[..i + 1] == scopes[..i] + [scopes[i]];
      i := i + 1;
    }
    assert scopes[..i] == scopes;
    r := Pass;
  }

  /** AddMsalScopes(IEnumerable<string>): an existing ICollection<string>
    * is reused, anything else is copied into a new List; a List is
    * extended with AddRange, any other collection one Add at a time; the
    * result is stored as the scopes. Null added scopes count as none. */
  method AddMsalScopes(request: RequestMessage, scopes: Option<seq<string>>) returns (r: Outcome)
    modifies request, if GetMsalScopes(request.options).StringList? then {GetMsalScopes(request.options).list} else {}
    ensures
      var existing := GetMsalScopes(old(request.options));
      var added := if scopes.Some? then scopes.value else [];
      var expected := CombineAsWritten(old(Items(existing)), existing.FixedStrings?, added);
      && (r.Fail? <==> expected.Err?)
      && (r.Fail? ==> r.error == expected.error && request.options == old(request.options))
      && (r.Pass? ==> ScopesOptionsKey in request.options && IsStringEnumerable(request.options[ScopesOptionsKey]) && Items(request.options[ScopesOptionsKey]) == expected.value)
      && (r.Pass? ==> request.options == old(request.options)[ScopesOptionsKey := request.options[ScopesOptionsKey]])
      && (r.Pass? && (existing.StringList? || existing.FixedStrings?) ==> request.options[ScopesOptionsKey] == existing)
      && (r.Pass? && !(existing.StringList? || existing.FixedStrings?) ==>
            request.options[ScopesOptionsKey].StringList? && fresh(request.options[ScopesOptionsKey].list))
  {
    var existing := GetMsalScopes(request.options);
    var added := if scopes.Some? then scopes.value else [];
    var combined: Obj;
    if existing.StringList? || existing.FixedStrings? {
      combined := existing;
    } else {
      var copy := new ScopeList(Items(existing));
      combined := StringList(copy);
    }
    if combined.StringList? {
      combined.list.items := combined.list.items + added;
    } else {
      r := AddEach(combined, added);
      if r.Fail? {
        return;
      }
    }
    SetMsalScopes(request, combined);
    r := Pass;
  }

  /** AddMsalScopes(ReadOnlySpan<string>): the same choice of collection,
    * then one Add per scope whatever the collection is. */
  method AddMsalScopesSpan(request: RequestMessage, scopes: seq<string>) returns (r: Outcome)
    modifies request, if GetMsalScopes(request.options).StringList? then {GetMsalScopes(request.options).list} else {}
    ensures
      var existing := GetMsalScopes(old(request.options));
      var expected := CombineAsWritten(old(Items(existing)), existing.FixedStrings?, scopes);
      && (r.Fail? <==> expected.Err?)
      && (r.Fail? ==> r.error == expected.error && request.options == old(request.options))
      && (r.Pass? ==> ScopesOptionsKey in request.options && IsStringEnumerable(request.options[ScopesOptionsKey]) && Items(request.options[ScopesOptionsKey]) == expected.value)
      && (r.Pass? ==> request.options == old(request.options)[ScopesOptionsKey := request.options[ScopesOptionsKey]])
      && (r.Pass? && (existing.StringList? || existing.FixedStrings?) ==> request.options[ScopesOptionsKey] == existing)
      && (r.Pass? && !(existing.StringList? || existing.FixedStrings?) ==>
            request.options[ScopesOptionsKey].StringList? && fresh(request.options[ScopesOptionsKey].list))
  {
    var existing := GetMsalScopes(request.options);
    var combined: Obj;
    if existing.StringList? || existing.FixedStrings? {
      combined := existing;
    } else {
      var copy := new ScopeList(Items(existing));
      combined := StringList(copy);
    }
    r := AddEach(combined, scopes);
    if r.Fail? {
      return;
    }
    SetMsalScopes(request, combined);
  }

  /** As written, adding scopes to a request that has none fails: the
    * empty default is an array, whose Add is not supported. The same
    * holds when a single string is stored. */
  lemma AddScopesWithoutExistingFails(options: Options, added: seq<string>)
    requires ScopesOptionsKey !in options || options[ScopesOptionsKey].Str?
    requires added != []
    ensures GetMsalScopes(options).FixedStrings?
    ensures CombineAsWritten(Items(GetMsalScopes(options)), GetMsalScopes(options).FixedStrings?, added) == Err(NotSupported)
  {
  }

  /** AddMsalScopes as evidently intended: whatever the existing scopes
    * are, the stored scopes become existing ++ added; a List is extended in
    * place, anything else is copied into a new List first. */
  method AddMsalScopesCombined(request: RequestMessage, scopes: Option<seq<string>>)
    modifies request, if GetMsalScopes(request.options).StringList? then {GetMsalScopes(request.options).list} else {}
    ensures
      var existing := GetMsalScopes(old(request.options));
      var added := if scopes.Some? then scopes.value else [];
      && ScopesOptionsKey in request.options
      && request.options[ScopesOptionsKey].StringList?
      && Items(request.options[ScopesOptionsKey]) == old(Items(existing)) + added
      && request.options == old(request.options)[ScopesOptionsKey := request.options[ScopesOptionsKey]]
  {
    var existing := GetMsalScopes(request.options);
    var added := if scopes.Some? then scopes.value else [];
    var combined: Obj;
    if existing.StringList? {
      combined := existing;
    } else {
      var copy := new ScopeList(Items(existing));
      combined := StringList(copy);
    }
    combined.list.items := combined.list.items + added;
    SetMsalScopes(request, combined);
  }
}
