// Inserting configuration sources at a position of an existing
// configuration builder: a temporary builder whose source list shows the
// first `insertIndex` sources of the real builder followed by the sources
// the caller adds, and a splice that copies the added sources into the
// real list at `insertIndex`.

module ConfigInsert {
  import opened Common

  /** A configuration source, identified by reference. */
  type Source = nat

  /** The configuration builder the sources are inserted into. */
  class ConfigurationBuilder {
    var sources: seq<Source>

    constructor (sources: seq<Source>)
      ensures this.sources == sources
    {
      this.sources := sources;
    }
  }

  /** The observable state of a temporary source list: the origin's list
    * (whose first `insertIndex` entries are shared with the view) and the
    * list of sources added through the view. */
  datatype View = View(sources: seq<Source>, newSources: seq<Source>)

  /** Enumerable.Take(n) */
  function Take(s: seq<Source>, n: int): (r: seq<Source>)
    ensures |r| == if n <= 0 then 0 else if n >= |s| then |s| else n
    ensures forall i :: 0 <= i < |r| ==> r[i] == s[i]
  {
    if n <= 0 then [] else if n >= |s| then s else s[..n]
  }

  /** What enumerating the temporary list yields. */
  function Enumerate(insertIndex: int, v: View): (r: seq<Source>)
    ensures |r| >= |v.newSources| && r[|r| - |v.newSources|..] == v.newSources
    ensures PrefixShared(insertIndex, v) ==> |r| == insertIndex + |v.newSources| && r[..insertIndex] == v.sources[..insertIndex]
  {
    Take(v.sources, insertIndex) + v.newSources
  }

  /** The Count property of the temporary list. */
  function Count(insertIndex: int, v: View): (r: int)
    ensures PrefixShared(insertIndex, v) ==> r == |v.sources[..insertIndex] + v.newSources|
  {
    insertIndex + |v.newSources|
  }

  /** The indexer's getter: below `insertIndex` it reads the origin's list,
    * from `insertIndex` on it reads the added sources. */
  function GetAt(insertIndex: int, v: View, index: int): (r: Result<Source>)
    ensures r.Ok? <==> (if index < insertIndex then 0 <= index < |v.sources| else index < Count(insertIndex, v))
    ensures r.Err? ==> r.error == ArgumentOutOfRange
  {
    if index < insertIndex then
      if 0 <= index < |v.sources| then Ok(v.sources[index]) else Err(ArgumentOutOfRange)
    else if index - insertIndex < |v.newSources| then Ok(v.newSources[index - insertIndex])
    else Err(ArgumentOutOfRange)
  }

  /** IndexOf: a position in the shared prefix, else a position among the
    * added sources shifted by `insertIndex`, else -1. */
  function ViewIndexOf(insertIndex: int, v: View, item: Source): (r: int)
    ensures 0 <= insertIndex ==> -1 <= r
    ensures 0 <= r < insertIndex ==> r < |v.sources| && v.sources[r] == item
    ensures 0 <= insertIndex <= r ==> r - insertIndex < |v.newSources| && v.newSources[r - insertIndex] == item
    ensures 0 <= insertIndex ==> (r == -1 <==> !ViewContains(insertIndex, v, item))
  {
    var k := IndexOf(v.sources, item);
    if 0 <= k < insertIndex then k
    else
      var j := IndexOf(v.newSources, item);
      if j >= 0 then j + insertIndex else -1
  }

  /** Contains: the item is found in the shared prefix or among the added
    * sources. */
  predicate ViewContains(insertIndex: int, v: View, item: Source): (r: bool)
    ensures r <==> item in v.newSources || exists i :: 0 <= i < insertIndex && 0 <= i < |v.sources| && v.sources[i] == item
  {
    (0 <= IndexOf(v.sources, item) < insertIndex) || item in v.newSources
  }

  /** The mutating operations of the temporary list, as the caller's
    * configuration action may issue them. */
  datatype ViewOp =
    | SetItem(index: int, item: Source)
    | AddItem(item: Source)
    | ClearItems
    | InsertItem(index: int, item: Source)
    | RemoveItem(item: Source)
    | RemoveItemAt(index: int)

  /** The effect of one operation on the temporary list's state. */
  function Step(insertIndex: int, v: View, op: ViewOp): Result<View>
  {
    match op
    case SetItem(index, item) =>
      if index < insertIndex then
        if 0 <= index < |v.sources| then Ok(v.(sources := v.sources[index := item]))
        else Err(ArgumentOutOfRange)
      else if index - insertIndex < |v.newSources| then
        Ok(v.(newSources := v.newSources[index - insertIndex := item]))
      else Err(ArgumentOutOfRange)
    case AddItem(item) => Ok(v.(newSources := v.newSources + [item]))
    case ClearItems => Ok(v.(newSources := []))
    case InsertItem(index, item) =>
      var j := index - insertIndex;
      if 0 <= j <= |v.newSources| then Ok(v.(newSources := v.newSources[..j] + [item] + v.newSources[j..]))
      else Err(ArgumentOutOfRange)
    case RemoveItem(item) =>
      if 0 <= IndexOf(v.sources, item) < insertIndex then Err(InvalidOperation)
      else
        var j := IndexOf(v.newSources, item);
        if j < 0 then Ok(v) else Ok(v.(newSources := v.newSources[..j] + v.newSources[j + 1..]))
    case RemoveItemAt(index) =>
      var j := index - insertIndex;
      if 0 <= j < |v.newSources| then Ok(v.(newSources := v.newSources[..j] + v.newSources[j + 1..]))
      else Err(ArgumentOutOfRange)
  }

  /** A run of the caller's action: the state it leaves, and the exception
    * that stopped it, if any. */
  datatype ScriptRun = ScriptRun(view: View, error: Option<Error>)

  function RunScript(insertIndex: int, v: View, ops: seq<ViewOp>): ScriptRun
    decreases |ops|
  {
    if ops == [] then ScriptRun(v, None)
    else
      match Step(insertIndex, v, ops[0])
      case Err(e) => ScriptRun(v, Some(e))
      case Ok(w) => RunScript(insertIndex, w, ops[1..])
  }

  /** The real list after the added sources are copied in at `index`. */
  function Splice(sources: seq<Source>, index: int, added: seq<Source>): seq<Source>
    requires added == [] || 0 <= index <= |sources|
  {
    if added == [] then sources else sources[..index] + added + sources[index..]
  }

  /** The source list of the temporary builder. */
  class TemporarySourceList {
    const origin: ConfigurationBuilder
    const insertIndex: int
    var newSources: seq<Source>

    function State(): View
      reads this, origin
    {
      View(origin.sources, newSources)
    }

    constructor (origin: ConfigurationBuilder, insertIndex: int)
      ensures this.origin == origin && this.insertIndex == insertIndex
      ensures newSources == []
    {
      this.origin := origin;
      this.insertIndex := insertIndex;
      newSources := [];
    }

    /** The indexer's setter; below `insertIndex` it writes through to the
      * origin's list. */
    method Set(index: int, item: Source) returns (r: Outcome)
      modifies this, origin
      ensures Step(insertIndex, old(State()), SetItem(index, item)) == if r.Pass? then Ok(State()) else Err(r.error)
      ensures r.Fail? ==> State() == old(State())
    {
      if index < insertIndex {
        if 0 <= index < |origin.sources| {
          origin.sources := origin.sources[index := item];
          r := Pass;
        } else {
          r := Fail(ArgumentOutOfRange);
        }
      } else if index - insertIndex < |newSources| {
        newSources := newSources[index - insertIndex := item];
        r := Pass;
      } else {
        r := Fail(ArgumentOutOfRange);
      }
    }

    method Add(item: Source)
      modifies this
      ensures newSources == old(newSources) + [item]
    {
      newSources := newSources + [item];
    }

    method Clear()
      modifies this
      ensures newSources == []
    {
      newSources := [];
    }

    method Insert(index: int, item: Source) returns (r: Outcome)
      modifies this
      ensures Step(insertIndex, old(State()), InsertItem(index, item)) == if r.Pass? then Ok(State()) else Err(r.error)
      ensures r.Fail? ==> newSources == old(newSources)
    {
      var j := index - insertIndex;
      if 0 <= j <= |newSources| {
        newSources := newSources[..j] + [item] + newSources[j..];
        r := Pass;
      } else {
        r := Fail(ArgumentOutOfRange);
      }
    }

    /** Remove: refuses to remove a shared source; otherwise removes the
      * first added occurrence and reports whether there was one. */
    method Remove(item: Source) returns (r: Result<bool>)
      modifies this
      ensures Step(insertIndex, old(State()), RemoveItem(item)) == if r.Ok? then Ok(State()) else Err(r.error)
      ensures r.Err? ==> newSources == old(newSources)
      ensures r.Ok? ==> (r.value <==> item in old(newSources))
    {
      var k := IndexOf(origin.sources, item);
      if 0 <= k < insertIndex {
        r := Err(InvalidOperation);
      } else {
        var j := IndexOf(newSources, item);
        if j < 0 {
          r := Ok(false);
        } else {
          newSources := newSources[..j] + newSources[j + 1..];
          r := Ok(true);
        }
      }
    }

    method RemoveAt(index: int) returns (r: Outcome)
      modifies this
      ensures Step(insertIndex, old(State()), RemoveItemAt(index)) == if r.Pass? then Ok(State()) else Err(r.error)
      ensures r.Fail? ==> newSources == old(newSources)
    {
      var j := index - insertIndex;
      if 0 <= j < |newSources| {
        newSources := newSources[..j] + newSources[j + 1..];
        r := Pass;
      } else {
        r := Fail(ArgumentOutOfRange);
      }
    }

    /** CopyTo copies the added sources only. */
    method CopyTo(a: array<Source>, arrayIndex: int) returns (r: Outcome)
      modifies a
      ensures arrayIndex < 0 ==> r == Fail(ArgumentOutOfRange)
      ensures 0 <= arrayIndex && a.Length - arrayIndex < |newSources| ==> r == Fail(Argument)
      ensures r.Fail? ==> a[..] == old(a[..])
      ensures r.Pass? <==> 0 <= arrayIndex && arrayIndex + |newSources| <= a.Length
      ensures r.Pass? ==> a[..] == old(a[..arrayIndex]) + newSources + old(a[arrayIndex + |newSources|..])
    {
      if arrayIndex < 0 {
        return Fail(ArgumentOutOfRange);
      }
      if a.Length - arrayIndex < |newSources| {
        return Fail(Argument);
      }
      var n := |newSources|;
      forall i | arrayIndex <= i < arrayIndex + n {
        a[i] := newSources[i - arrayIndex];
      }
      r := Pass;
      assert a[..] == old(a[..arrayIndex]) + newSources + old(a[arrayIndex + n..]);
    }

    /** Applies the caller's action, one operation after another, until
      * the first exception. */
    method RunAction(ops: seq<ViewOp>) returns (error: Option<Error>)
      modifies this, origin
      ensures RunScript(insertIndex, old(State()), ops) == ScriptRun(State(), error)
    {
      var i := 0;
      error := None;
      while i < |ops|
        invariant 0 <= i <= |ops|
        invariant RunScript(insertIndex, old(State()), ops) == RunScript(insertIndex, State(), ops[i..])
        decreases |ops| - i
      {
        assert ops[i..][1..] == ops[i + 1..];
        match ops[i] {
            case SetItem(index, item) =>
            var r := Set(index, item);
            if r.Fail? { return Some(r.error); }
          case AddItem(item) =>
            Add(item);
          case ClearItems =>
            Clear();
          case InsertItem(index, item) =>
            var r := Insert(index, item);
            if r.Fail? { return Some(r.error); }
          case RemoveItem(item) =>
            var r := Remove(item);
            if r.Err? { return Some(r.error); }
          case RemoveItemAt(index) =>
            var r := RemoveAt(index);
            if r.Fail? { return Some(r.error); }
        }
        i := i + 1;
      }
    }
  }

  /** The temporary builder handed to the caller's action. Building it is
    * not supported. */
  class TemporaryConfigurationBuilder {
    const sources: TemporarySourceList

    constructor (origin: ConfigurationBuilder, insertIndex: int)
      ensures fresh(sources)
      ensures sources.origin == origin && sources.insertIndex == insertIndex && sources.newSources == []
    {
      sources := new TemporarySourceList(origin, insertIndex);
    }

    /** Add delegates to the source list and returns the builder itself. */
    method Add(item: Source) returns (r: TemporaryConfigurationBuilder)
      modifies sources
      ensures r == this
      ensures sources.newSources == old(sources.newSources) + [item]
    {
      sources.Add(item);
      r := this;
    }

    method Build() returns (r: Result<ConfigurationBuilder>)
      ensures r == Err(InvalidOperation)
    {
      r := Err(InvalidOperation);
    }
  }

  /** The copy loop: each added source is inserted into the real list at
    * the next position from `tmp.insertIndex` on, reading it back through
    * the temporary list's indexer. */
  method CopyNewSources(config: ConfigurationBuilder, tmp: TemporarySourceList) returns (r: Outcome)
    requires tmp.origin == config
    modifies config
    ensures r.Pass? <==> (tmp.newSources == [] || 0 <= tmp.insertIndex <= |old(config.sources)|)
    ensures r.Pass? ==> config.sources == Splice(old(config.sources), tmp.insertIndex, tmp.newSources)
    ensures r.Fail? ==> r.error == ArgumentOutOfRange && config.sources == old(config.sources)
  {
    var index := tmp.insertIndex;
    var n := |tmp.newSources|;
    var i := index;
    while i < index + n
      invariant index <= i <= index + n
      invariant i > index ==> 0 <= index <= |old(config.sources)|
      invariant i > index ==> config.sources == old(config.sources)[..index] + tmp.newSources[..i - index] + old(config.sources)[index..]
      invariant i == index ==> config.sources == old(config.sources)
      decreases index + n - i
    {
      var item := GetAt(index, tmp.State(), i);
      if !(0 <= i <= |config.sources|) {
        return Fail(ArgumentOutOfRange);
      }
      assert item == Ok(tmp.newSources[i - index]);
      ghost var before := config.sources;
      config.sources := config.sources[..i] + [item.value] + config.sources[i..];
      assert tmp.newSources[..i + 1 - index] == tmp.newSources[..i - index] + [tmp.newSources[i - index]];
      assert before[..i] == old(config.sources)[..index] + tmp.newSources[..i - index];
      assert before[i..] == old(config.sources)[index..];
      i := i + 1;
    }
    assert tmp.newSources[..n] == tmp.newSources;
    r := Pass;
  }

  /** The Insert extension: runs the caller's action against a temporary
    * builder positioned at `index`, then copies the sources it added into
    * the real builder at `index`. */
  method Insert(config: Option<ConfigurationBuilder>, index: int, addAction: Option<seq<ViewOp>>)
    returns (r: Result<ConfigurationBuilder>)
    modifies if config.Some? then {config.value} else {}
    ensures config.None? ==> r == Err(ArgumentNull)
    ensures config.Some? && addAction.None? ==> r == Ok(config.value) && config.value.sources == old(config.value.sources)
    ensures config.Some? && addAction.Some? ==>
      var run := RunScript(index, View(old(config.value.sources), []), addAction.value);
      var v := run.view;
      if run.error.Some? then r == Err(run.error.value) && config.value.sources == v.sources
      else if v.newSources == [] || 0 <= index <= |v.sources| then
        r == Ok(config.value) && config.value.sources == Splice(v.sources, index, v.newSources)
      else r == Err(ArgumentOutOfRange) && config.value.sources == v.sources
  {
    if config.None? {
      return Err(ArgumentNull);
    }
    var builder := config.value;
    if addAction.None? {
      return Ok(builder);
    }
    var tmp := new TemporaryConfigurationBuilder(builder, index);
    var error := tmp.sources.RunAction(addAction.value);
    if error.Some? {
      return Err(error.value);
    }
    var copied := CopyNewSources(builder, tmp.sources);
    if copied.Fail? {
      return Err(copied.error);
    }
    r := Ok(builder);
  }

  // ---------------------------------------------------------------------
  // What the temporary list promises: it behaves as a list holding the
  // shared prefix followed by the added sources.

  predicate PrefixShared(insertIndex: int, v: View)
  {
    0 <= insertIndex <= |v.sources|
  }

  lemma GetAtIsEnumerated(insertIndex: int, v: View, index: int)
    requires PrefixShared(insertIndex, v)
    ensures |Enumerate(insertIndex, v)| == Count(insertIndex, v)
    ensures 0 <= index < Count(insertIndex, v) ==> GetAt(insertIndex, v, index) == Ok(Enumerate(insertIndex, v)[index])
    ensures !(0 <= index < Count(insertIndex, v)) ==> GetAt(insertIndex, v, index) == Err(ArgumentOutOfRange)
  {
  }

  lemma IndexOfIsFirstInView(insertIndex: int, v: View, item: Source)
    requires PrefixShared(insertIndex, v)
    ensures ViewIndexOf(insertIndex, v, item) == IndexOf(Enumerate(insertIndex, v), item)
    ensures ViewContains(insertIndex, v, item) <==> item in Enumerate(insertIndex, v)
  {
    var k := IndexOf(v.sources, item);
    if 0 <= k < insertIndex {
      FoundInSharedPrefix(insertIndex, v, item);
    } else {
      FoundAmongAdded(insertIndex, v, item);
    }
  }

  /** An item first found in the shared prefix is found there in the
    * view too. */
  lemma FoundInSharedPrefix(insertIndex: int, v: View, item: Source)
    requires PrefixShared(insertIndex, v) && 0 <= IndexOf(v.sources, item) < insertIndex
    ensures IndexOf(Enumerate(insertIndex, v), item) == IndexOf(v.sources, item)
  {
    var e := Enumerate(insertIndex, v);
    var p := v.sources[..insertIndex];
    var k := IndexOf(v.sources, item);
    assert e == p + v.newSources;
    assert p[..k] == v.sources[..k];
    assert e[..k] == p[..k];
    IndexOfUnique(e, item, k);
  }

  /** An item not in the shared prefix is found in the view at its
    * position among the added sources, shifted by the prefix. */
  lemma FoundAmongAdded(insertIndex: int, v: View, item: Source)
    requires PrefixShared(insertIndex, v) && !(0 <= IndexOf(v.sources, item) < insertIndex)
    ensures var j := IndexOf(v.newSources, item);
      IndexOf(Enumerate(insertIndex, v), item) == if j >= 0 then j + insertIndex else -1
    ensures item in Enumerate(insertIndex, v) <==> item in v.newSources
  {
    var e := Enumerate(insertIndex, v);
    var p := v.sources[..insertIndex];
    assert e == p + v.newSources;
    IndexOfInPrefix(v.sources, insertIndex, item);
    var j := IndexOf(v.newSources, item);
    if j >= 0 {
      assert e[insertIndex + j] == item;
      assert e[..insertIndex + j] == p + v.newSources[..j];
      IndexOfUnique(e, item, insertIndex + j);
    } else {
      assert item !in e;
    }
  }

  lemma IndexOfUnique(s: seq<Source>, x: Source, k: int)
    requires 0 <= k < |s| && s[k] == x && x !in s[..k]
    ensures IndexOf(s, x) == k
  {
    var r := IndexOf(s, x);
    assert s[..r + 1][r] == x;
    assert s[..k + 1][k] == x;
  }

  /** Add, Insert and RemoveAt act on the view exactly as the same calls
    * on an ordinary list holding the view's elements. */
  lemma AddAppendsToView(insertIndex: int, v: View, item: Source)
    requires PrefixShared(insertIndex, v)
    ensures Step(insertIndex, v, AddItem(item)).Ok?
    ensures Enumerate(insertIndex, Step(insertIndex, v, AddItem(item)).value) == Enumerate(insertIndex, v) + [item]
    ensures Step(insertIndex, v, AddItem(item)).value.sources == v.sources
  {
  }

  lemma InsertIntoView(insertIndex: int, v: View, index: int, item: Source)
    requires PrefixShared(insertIndex, v)
    requires insertIndex <= index <= Count(insertIndex, v)
    ensures Step(insertIndex, v, InsertItem(index, item)).Ok?
    ensures
      var e := Enumerate(insertIndex, v);
      Enumerate(insertIndex, Step(insertIndex, v, InsertItem(index, item)).value) == e[..index] + [item] + e[index..]
  {
    var e := Enumerate(insertIndex, v);
    var j := index - insertIndex;
    var p := v.sources[..insertIndex];
    assert e == p + v.newSources;
    assert e[..index] == p + v.newSources[..j];
    assert e[index..] == v.newSources[j..];
  }

  lemma RemoveAtFromView(insertIndex: int, v: View, index: int)
    requires PrefixShared(insertIndex, v)
    requires insertIndex <= index < Count(insertIndex, v)
    ensures Step(insertIndex, v, RemoveItemAt(index)).Ok?
    ensures
      var e := Enumerate(insertIndex, v);
      Enumerate(insertIndex, Step(insertIndex, v, RemoveItemAt(index)).value) == e[..index] + e[index + 1..]
  {
    var e := Enumerate(insertIndex, v);
    var j := index - insertIndex;
    var p := v.sources[..insertIndex];
    assert e == p + v.newSources;
    assert e[..index] == p + v.newSources[..j];
    assert e[index + 1..] == v.newSources[j + 1..];
  }

  /** Positions of the shared prefix can be overwritten but not inserted
    * into, removed or removed by value. */
  lemma PrefixIsFixedLength(insertIndex: int, v: View, op: ViewOp)
    requires PrefixShared(insertIndex, v)
    requires Step(insertIndex, v, op).Ok?
    ensures |Step(insertIndex, v, op).value.sources| == |v.sources|
    ensures !op.SetItem? ==> Step(insertIndex, v, op).value.sources == v.sources
    ensures op.InsertItem? || op.RemoveItemAt? ==> op.index >= insertIndex
    ensures op.RemoveItem? ==> !(op.item in v.sources[..insertIndex])
  {
    if op.RemoveItem? {
      IndexOfInPrefix(v.sources, insertIndex, op.item);
    }
  }

  lemma IndexOfInPrefix(s: seq<Source>, n: int, x: Source)
    requires 0 <= n <= |s|
    ensures x in s[..n] <==> 0 <= IndexOf(s, x) < n
  {
    if x in s[..n] {
      var m :| 0 <= m < n && s[..n][m] == x;
      assert s[..m + 1][m] == x;
    }
    var k := IndexOf(s, x);
    if 0 <= k < n {
      assert s[..n][k] == x;
    }
  }

  /** What Insert leaves in the real builder: the temporary view's elements
    * followed by the rest of the real list, so the added sources sit at
    * `index` in the order the action left them. */
  lemma SpliceIsViewThenRest(insertIndex: int, v: View)
    requires PrefixShared(insertIndex, v)
    ensures Splice(v.sources, insertIndex, v.newSources) == Enumerate(insertIndex, v) + v.sources[insertIndex..]
    ensures |Splice(v.sources, insertIndex, v.newSources)| == |v.sources| + |v.newSources|
  {
  }

  /** Adding through the temporary builder only, then copying, inserts
    * exactly the added sources at `index`. */
  lemma {:induction false} AddOnlyScript(insertIndex: int, v: View, items: seq<Source>)
    ensures RunScript(insertIndex, v, seq(|items|, i requires 0 <= i < |items| => AddItem(items[i])))
      == ScriptRun(v.(newSources := v.newSources + items), None)
    decreases |items|
  {
    var ops := seq(|items|, i requires 0 <= i < |items| => AddItem(items[i]));
    if items != [] {
      var w := v.(newSources := v.newSources + [items[0]]);
      assert ops[1..] == seq(|items[1..]|, i requires 0 <= i < |items[1..]| => AddItem(items[1..][i]));
      AddOnlyScript(insertIndex, w, items[1..]);
      assert v.newSources + [items[0]] + items[1..] == v.newSources + items;
    }
  }
}
