/**
 * `FileList`: a mutable list of paths that all live under one parent
 * directory.  Every name given to `append`, `extend` or an assignment is
 * joined onto the parent, and assigning past the end grows the list with
 * copies of the parent itself.
 */
module FileLists {
  import opened Wrappers
  import opened Text
  import opened Paths
  import opened Exceptions

  /** A subscript: an integer index, a step-1 slice `[start:stop]`, or anything else. */
  datatype Key = IntKey(i: int) | SliceKey(start: Option<int>, stop: Option<int>) | OtherKey

  /** The right-hand side of an assignment: one name, or a list of names. */
  datatype Value = OneName(name: string) | Names(names: seq<string>)

  /** What an assignment leaves behind: the items, and the exception it raised, if any. */
  datatype Assigned = Assigned(items: seq<Path>, error: Option<Error>)

  const BadKey := "Index must be an integer or a slice."
  const AssignIndexError := "list assignment index out of range"
  const GetIndexError := "list index out of range"
  const ListOperand := "unsupported operand type(s) for /: 'PosixPath' and 'list'"
  const SliceArity := "FileList.__init__() takes 2 positional arguments but 3 were given"

  /** `[parent / f for f in files]`. */
  function Children(parent: Path, files: seq<string>): seq<Path>
  {
    seq(|files|, k requires 0 <= k < |files| => Child(parent, files[k]))
  }

  /** The names an iterable value yields; iterating a string yields its characters. */
  function Iterated(v: Value): seq<string>
  {
    match v
    case OneName(s) => seq(|s|, k requires 0 <= k < |s| => [s[k]])
    case Names(names) => names
  }

  /** A start or stop of a step-1 slice over `n` items, clamped as Python clamps it. */
  function SliceIndex(n: nat, k: Option<int>, absent: nat): (r: nat)
    requires absent <= n
    ensures r <= n
  {
    if k.None? then absent
    else if k.value < 0 then (if k.value + n < 0 then 0 else k.value + n)
    else if k.value > n then n
    else k.value
  }

  /** The half-open region `[lo, hi)` a slice `[start:stop]` denotes over `n` items. */
  function Bounds(n: nat, start: Option<int>, stop: Option<int>): (b: (nat, nat))
    ensures b.0 <= b.1 <= n
  {
    var lo := SliceIndex(n, start, 0);
    var hi := SliceIndex(n, stop, n);
    (lo, if hi < lo then lo else hi)
  }

  /** `items[i]` for an integer index: negative indices count from the end. */
  function GetItem(items: seq<Path>, i: int): (r: Result<Path, Error>)
    ensures r.Ok? <==> -|items| <= i < |items|
    ensures r.Ok? ==> r.value in items
  {
    if 0 <= i < |items| then Ok(items[i])
    else if -|items| <= i < 0 then Ok(items[|items| + i])
    else Err(PyIndexError(GetIndexError))
  }

  /** A negative index reads the item it names counted from the end. */
  lemma GetItemFromEnd(items: seq<Path>, i: int)
    requires 0 <= i < |items|
    ensures GetItem(items, i - |items|) == GetItem(items, i) == Ok(items[i])
  {
  }

  /** The items a step-1 slice selects. */
  function Sliced(items: seq<Path>, start: Option<int>, stop: Option<int>): (r: seq<Path>)
    ensures |r| <= |items|
    ensures |r| == Bounds(|items|, start, stop).1 - Bounds(|items|, start, stop).0
  {
    var b := Bounds(|items|, start, stop);
    items[b.0..b.1]
  }

  /**
   * `fl[start:stop]` as written: the selected items are handed to
   * `FileList(parent, items)`, but the constructor takes only the parent,
   * so the call raises `TypeError` for every list and every slice.
   */
  function SliceAsWritten(parent: Path, items: seq<Path>, start: Option<int>, stop: Option<int>)
    : (r: Result<seq<Path>, Error>)
    ensures r.Err? && r.error.PyTypeError?
  {
    Err(PyTypeError(SliceArity))
  }

  /** Even the full copy `fl[:]` of a one-element list fails, where a copy was intended. */
  lemma SliceFinding(parent: Path)
    ensures SliceAsWritten(parent, [parent], None, None).Err?
    ensures Sliced([parent], None, None) == [parent]
  {
  }

  /** Reading the intended slice at `k` reads the original list at `lo + k`. */
  lemma SlicedGet(items: seq<Path>, start: Option<int>, stop: Option<int>, k: int)
    requires 0 <= k < |Sliced(items, start, stop)|
    ensures GetItem(Sliced(items, start, stop), k) == GetItem(items, Bounds(|items|, start, stop).0 + k)
  {
  }

  /** `fl[key] = value` on a list with parent `parent` holding `items`. */
  function AfterSetItem(parent: Path, items: seq<Path>, key: Key, value: Value): Assigned
  {
    match key
    case SliceKey(start, stop) =>
      var b := Bounds(|items|, start, stop);
      Assigned(items[..b.0] + Children(parent, Iterated(value)) + items[b.1..], None)
    case IntKey(i) =>
      var grown := if i >= |items| then items + Children(parent, seq(i - |items| + 1, _ => "")) else items;
      if value.Names? then Assigned(grown, Some(PyTypeError(ListOperand)))
      else if i < -|grown| then Assigned(grown, Some(PyIndexError(AssignIndexError)))
      else
        var k := if i < 0 then i + |grown| else i;
        Assigned(grown[k := Child(parent, value.name)], None)
    case OtherKey => Assigned(items, Some(PyTypeError(BadKey)))
  }

  /** An assignment raises exactly for a foreign key, a list at an index, or an index before the start. */
  lemma SetItemFails(parent: Path, items: seq<Path>, key: Key, value: Value)
    ensures AfterSetItem(parent, items, key, value).error.Some? <==>
      key.OtherKey? || (key.IntKey? && (value.Names? || key.i < -|items|))
  {
  }

  /**
   * Assigning a name at `i >= len` grows the list to `i + 1` items: the old
   * items stay in front, the gap holds the parent itself, and the name lands at `i`.
   */
  lemma {:induction false} SetItemGrows(parent: Path, items: seq<Path>, i: int, name: string)
    requires i >= |items|
    ensures var r := AfterSetItem(parent, items, IntKey(i), OneName(name));
      && r.error.None?
      && |r.items| == i + 1
      && r.items[..|items|] == items
      && (forall k :: |items| <= k < i ==> r.items[k] == parent)
      && r.items[i] == Child(parent, name)
  {
    var r := AfterSetItem(parent, items, IntKey(i), OneName(name));
    var grown := items + Children(parent, seq(i - |items| + 1, _ => ""));
    assert r.items == grown[i := Child(parent, name)];
    assert r.items[..|items|] == items;
  }

  /** A list value at an index still grows the list before `parent / value` raises. */
  lemma SetItemListStillGrows(parent: Path, items: seq<Path>, i: int, names: seq<string>)
    requires i >= |items|
    ensures var r := AfterSetItem(parent, items, IntKey(i), Names(names));
      r.error == Some(PyTypeError(ListOperand)) && |r.items| == i + 1 && r.items[..|items|] == items
  {
    var r := AfterSetItem(parent, items, IntKey(i), Names(names));
    assert r.items[..|items|] == items;
  }

  /** Assigning at an index in range replaces that one item and nothing else. */
  lemma SetItemInRange(parent: Path, items: seq<Path>, i: int, name: string)
    requires -|items| <= i < |items|
    ensures var r := AfterSetItem(parent, items, IntKey(i), OneName(name));
      var k := if i < 0 then i + |items| else i;
      && r.error.None?
      && |r.items| == |items|
      && r.items[k] == Child(parent, name)
      && (forall j :: 0 <= j < |items| && j != k ==> r.items[j] == items[j])
  {
  }

  /** Whenever an index assignment succeeds, reading the same index gives `parent / name`. */
  lemma SetThenGet(parent: Path, items: seq<Path>, i: int, name: string)
    requires i >= -|items|
    ensures var r := AfterSetItem(parent, items, IntKey(i), OneName(name));
      r.error.None? && GetItem(r.items, i) == Ok(Child(parent, name))
  {
    if i >= |items| {
      SetItemGrows(parent, items, i, name);
    }
  }

  /**
   * Assigning names to a slice replaces its region by `parent / f` for each
   * `f`, keeping what lies before and after it, and reading that region back
   * gives exactly the new paths.
   */
  lemma SetSliceThenGet(parent: Path, items: seq<Path>, start: Option<int>, stop: Option<int>, value: Value)
    ensures var b := Bounds(|items|, start, stop);
      var r := AfterSetItem(parent, items, SliceKey(start, stop), value);
      var m := |Iterated(value)|;
      && r.error.None?
      && |r.items| == |items| - (b.1 - b.0) + m
      && r.items[..b.0] == items[..b.0]
      && r.items[b.0 + m..] == items[b.1..]
      && Sliced(r.items, Some(b.0), Some(b.0 + m)) == Children(parent, Iterated(value))
  {
    var b := Bounds(|items|, start, stop);
    var r := AfterSetItem(parent, items, SliceKey(start, stop), value);
    var m := |Iterated(value)|;
    var news := Children(parent, Iterated(value));
    assert r.items == items[..b.0] + news + items[b.1..];
    assert Bounds(|r.items|, Some(b.0), Some(b.0 + m)) == (b.0, b.0 + m);
    assert r.items[b.0..b.0 + m] == news;
    assert r.items[..b.0] == items[..b.0];
    assert r.items[b.0 + m..] == items[b.1..];
  }

  /** Iterating a string assigns one path per character. */
  lemma SetSliceString(parent: Path, items: seq<Path>, start: Option<int>, stop: Option<int>, s: string)
    ensures var b := Bounds(|items|, start, stop);
      var r := AfterSetItem(parent, items, SliceKey(start, stop), OneName(s));
      forall k :: 0 <= k < |s| ==> r.items[b.0 + k] == Path(parent.parts + [[s[k]]])
  {
    var b := Bounds(|items|, start, stop);
    var r := AfterSetItem(parent, items, SliceKey(start, stop), OneName(s));
    assert r.items == items[..b.0] + Children(parent, Iterated(OneName(s))) + items[b.1..];
  }

  /** Extending by two lists in turn is extending by their concatenation. */
  lemma ChildrenConcat(parent: Path, a: seq<string>, b: seq<string>)
    ensures Children(parent, a + b) == Children(parent, a) + Children(parent, b)
  {
    assert forall k :: 0 <= k < |a + b| ==> Children(parent, a + b)[k] == (Children(parent, a) + Children(parent, b))[k];
  }

  /** Every path built from names, each one relative component, lies within the parent. */
  lemma ChildrenWithin(parent: Path, files: seq<string>)
    ensures forall p :: p in Children(parent, files) ==> Within(p, parent)
  {
    forall k | 0 <= k < |files| {
      ChildWithin(parent, files[k]);
    }
  }

  /** `"\n".join(str(f) for f in items)`'s parts. */
  function Shown(items: seq<Path>): seq<string>
  {
    seq(|items|, k requires 0 <= k < |items| => Show(items[k]))
  }

  /** The first line of `repr`. */
  function Header(parent: Path, n: nat): string
  {
    "FileList(" + Show(parent) + ", " + NatToString(n) + " files):"
  }

  /** `repr(fl)`: a header line with the parent and the count, then one line per path. */
  function Repr(parent: Path, items: seq<Path>): string
  {
    Header(parent, |items|) + "\n" + Join(Shown(items), "\n")
  }

  /** The `repr` of an empty list is its header line followed by a line break. */
  lemma ReprEmpty(parent: Path)
    ensures Repr(parent, []) == Header(parent, 0) + "\n"
  {
    assert Shown([]) == [];
  }

  /** No component of `p` contains a line break. */
  predicate SingleLine(p: Path)
  {
    forall k :: 0 <= k < |p.parts| ==> '\n' !in p.parts[k]
  }

  /**
   * For a non-empty list whose paths hold no line breaks, `repr` has the
   * header line followed by exactly one line per item, in order.
   */
  lemma ReprLines(parent: Path, items: seq<Path>)
    requires |items| >= 1
    requires SingleLine(parent)
    requires forall k :: 0 <= k < |items| ==> SingleLine(items[k])
    ensures Split(Repr(parent, items), '\n') == [Header(parent, |items|)] + Shown(items)
  {
    var parts := [Header(parent, |items|)] + Shown(items);
    JoinAvoids(parent.parts, "/", '\n');
    assert '\n' !in NatToString(|items|);
    assert '\n' !in parts[0];
    forall k | 1 <= k < |parts|
      ensures '\n' !in parts[k]
    {
      JoinAvoids(items[k - 1].parts, "/", '\n');
    }
    assert parts[1..] == Shown(items);
    assert Repr(parent, items) == Join(parts, "\n");
    SplitJoin(parts, '\n');
  }

  /** A value handed to the pydantic validator. */
  datatype Candidate = AFileList(list: FileList) | AList(elems: seq<string>) | Another(text: string)

  class FileList {
    /** The directory every item is joined onto. */
    var parent: Path
    var items: seq<Path>

    /** Every item lies within the parent directory. */
    predicate Valid()
      reads this
    {
      forall p :: p in items ==> Within(p, parent)
    }

    /** `FileList(parent)`: an empty list. */
    constructor(parent: Path)
      ensures this.parent == parent && items == []
      ensures Valid()
    {
      this.parent := parent;
      items := [];
    }

    /** `append(file)`: adds `parent / file` at the end. */
    method Append(file: string)
      requires Valid()
      modifies this
      ensures parent == old(parent)
      ensures items == old(items) + [Child(parent, file)]
      ensures Valid()
    {
      ChildWithin(parent, file);
      items := items + [Child(parent, file)];
    }

    /** `extend(files)`: adds `parent / f` for each `f`, in order, at the end. */
    method Extend(files: seq<string>)
      requires Valid()
      modifies this
      ensures parent == old(parent)
      ensures items == old(items) + Children(parent, files)
      ensures Valid()
    {
      ChildrenWithin(parent, files);
      items := items + Children(parent, files);
    }

    /** `fl[key] = value`; returns the exception raised, if any. */
    method SetItem(key: Key, value: Value) returns (error: Option<Error>)
      requires Valid()
      modifies this
      ensures parent == old(parent)
      ensures Assigned(items, error) == AfterSetItem(parent, old(items), key, value)
      ensures Valid()
    {
      match key {
        case SliceKey(start, stop) =>
          var b := Bounds(|items|, start, stop);
          ChildrenWithin(parent, Iterated(value));
          items := items[..b.0] + Children(parent, Iterated(value)) + items[b.1..];
          error := None;
        case IntKey(i) =>
          if i >= |items| {
            Extend(seq(i - |items| + 1, _ => ""));
          }
          if value.Names? {
            error := Some(PyTypeError(ListOperand));
          } else if i < -|items| {
            error := Some(PyIndexError(AssignIndexError));
          } else {
            var k := if i < 0 then i + |items| else i;
            ChildWithin(parent, value.name);
            items := items[k := Child(parent, value.name)];
            error := None;
          }
        case OtherKey =>
          error := Some(PyTypeError(BadKey));
      }
    }

    /** `fl[start:stop]` as intended: a new list under the same parent holding the selected items. */
    method GetSlice(start: Option<int>, stop: Option<int>) returns (r: FileList)
      requires Valid()
      ensures fresh(r)
      ensures r.parent == parent && r.items == Sliced(items, start, stop)
      ensures r.Valid()
    {
      r := new FileList(parent);
      r.items := Sliced(items, start, stop);
    }

    /** `rm_tree()`: removes every file beneath the parent directory. */
    function RmTree(fs: FileSystem): (r: FileSystem)
      reads this
      ensures forall p :: p in r ==> !Within(p, parent)
      ensures forall p :: p in fs && !Within(p, parent) ==> p in r && r[p] == fs[p]
    {
      RemoveTree(fs, parent)
    }

    /**
     * The pydantic validator: a `FileList` passes through as the same
     * object, a plain list becomes a fresh empty list under `cwd` (its
     * elements are dropped), and anything else raises `TypeError`.
     */
    static method Validate(value: Candidate, cwd: Path) returns (r: Result<FileList, Error>)
      ensures value.AFileList? ==> r == Ok(value.list)
      ensures value.AList? ==> r.Ok? && fresh(r.value) && r.value.parent == cwd && r.value.items == []
      ensures value.Another? ==> r == Err(PyTypeError("Cannot validate " + value.text + " as FileList"))
    {
      match value {
        case AFileList(list) => r := Ok(list);
        case AList(_) =>
          var fl := new FileList(cwd);
          r := Ok(fl);
        case Another(text) => r := Err(PyTypeError("Cannot validate " + text + " as FileList"));
      }
    }
  }
}
