// The registry of managed identities by options name, with a replaceable
// fallback used for every name without an entry of its own.

module ManagedIdentity {
  import opened Common

  datatype ManagedIdentityId =
    | SystemAssigned
    | UserAssignedClientId(clientId: string)
    | UserAssignedResourceId(resourceId: string)
    | UserAssignedObjectId(objectId: string)

  /** The identity a name resolves to: its own entry, else the fallback. A
    * null name stands for the default options name. */
  function Resolve(fallback: ManagedIdentityId, entries: map<string, ManagedIdentityId>, name: Option<string>): (r: ManagedIdentityId)
    ensures NameOrDefault(name) in entries ==> r == entries[NameOrDefault(name)]
    ensures NameOrDefault(name) !in entries ==> r == fallback
  {
    var key := NameOrDefault(name);
    if key in entries then entries[key] else fallback
  }

  class ManagedIdentityRegistry {
    var defaultEntry: ManagedIdentityId
    var entries: map<string, ManagedIdentityId>

    constructor ()
      ensures defaultEntry == SystemAssigned && entries == map[]
    {
      defaultEntry := SystemAssigned;
      entries := map[];
    }

    method SetAll(managedIdentityId: Option<ManagedIdentityId>) returns (r: Outcome)
      modifies this
      ensures managedIdentityId.None? ==> r == Fail(ArgumentNull) && defaultEntry == old(defaultEntry)
      ensures managedIdentityId.Some? ==> r == Pass && defaultEntry == managedIdentityId.value
      ensures entries == old(entries)
    {
      if managedIdentityId.None? {
        return Fail(ArgumentNull);
      }
      defaultEntry := managedIdentityId.value;
      r := Pass;
    }

    method Set(name: Option<string>, managedIdentityId: Option<ManagedIdentityId>) returns (r: Outcome)
      modifies this
      ensures managedIdentityId.None? ==> r == Fail(ArgumentNull) && entries == old(entries)
      ensures managedIdentityId.Some? ==> r == Pass && entries == old(entries)[NameOrDefault(name) := managedIdentityId.value]
      ensures defaultEntry == old(defaultEntry)
    {
      if managedIdentityId.None? {
        return Fail(ArgumentNull);
      }
      entries := entries[NameOrDefault(name) := managedIdentityId.value];
      r := Pass;
    }

    method Get(name: Option<string>) returns (r: ManagedIdentityId)
      ensures r == Resolve(defaultEntry, entries, name)
    {
      var key := NameOrDefault(name);
      if key in entries {
        return entries[key];
      }
      r := defaultEntry;
    }

    method Unset(name: Option<string>)
      modifies this
      ensures entries == old(entries) - {NameOrDefault(name)}
      ensures defaultEntry == old(defaultEntry)
    {
      entries := entries - {NameOrDefault(name)};
    }
  }

  /** A fresh registry resolves every name to the system-assigned
    * identity. */
  lemma InitiallySystemAssigned(name: Option<string>)
    ensures Resolve(SystemAssigned, map[], name) == SystemAssigned
  {
  }

  /** After Set(n, id), n resolves to id and every other name as before. */
  lemma SetThenResolve(fallback: ManagedIdentityId, entries: map<string, ManagedIdentityId>, n: Option<string>, id: ManagedIdentityId, other: Option<string>)
    ensures Resolve(fallback, entries[NameOrDefault(n) := id], n) == id
    ensures NameOrDefault(other) != NameOrDefault(n) ==> Resolve(fallback, entries[NameOrDefault(n) := id], other) == Resolve(fallback, entries, other)
  {
  }

  /** SetAll changes only the fallback: names with entries keep them. */
  lemma SetAllKeepsEntries(fallback: ManagedIdentityId, newFallback: ManagedIdentityId, entries: map<string, ManagedIdentityId>, name: Option<string>)
    ensures NameOrDefault(name) in entries ==> Resolve(newFallback, entries, name) == Resolve(fallback, entries, name)
    ensures NameOrDefault(name) !in entries ==> Resolve(newFallback, entries, name) == newFallback
  {
  }

  /** After Unset(n), n resolves to the fallback and other names are
    * untouched; unsetting an absent name changes nothing. */
  lemma UnsetThenResolve(fallback: ManagedIdentityId, entries: map<string, ManagedIdentityId>, n: Option<string>, other: Option<string>)
    ensures Resolve(fallback, entries - {NameOrDefault(n)}, n) == fallback
    ensures NameOrDefault(other) != NameOrDefault(n) ==> Resolve(fallback, entries - {NameOrDefault(n)}, other) == Resolve(fallback, entries, other)
    ensures NameOrDefault(n) !in entries ==> entries - {NameOrDefault(n)} == entries
  {
  }

  /** A null name and the default name resolve alike. */
  lemma NullNameIsDefaultName(fallback: ManagedIdentityId, entries: map<string, ManagedIdentityId>)
    ensures Resolve(fallback, entries, None) == Resolve(fallback, entries, Some(DefaultName))
  {
  }
}
