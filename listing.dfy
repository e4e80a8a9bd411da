/** The directory listing of the `GET` file route (app/api/files/route.ts,
    and the same rules in server/routes/files.js): the default path, the
    per-item entries, the parent entry, and the order of the listing.
    The file system is a map from absolute paths to nodes; `path.resolve`,
    `path.join` and `path.dirname` are opaque functions. `localeCompare` is
    stood in for by the character-code order on names. */
module Listing {
  import opened Common

  /** What `fs.stat` (and `fs.readdir`/`fs.readFile`) find at a path. A
      directory's item names are absent when `readdir` fails on it (a
      directory without read permission), and a file's content is absent
      when reading it fails. */
  datatype Node =
    | DirNode(children: Option<seq<string>>)
    | FileNode(content: Option<string>, size: nat)

  /** The opaque path functions. */
  datatype PathOps = PathOps(resolve: string -> string, join: (string, string) -> string, dirname: string -> string)

  datatype Kind = Directory | File | Unknown

  /** One entry of `items`; sizes, times and modes are left out. */
  datatype Entry = Entry(name: string, path: string, kind: Kind, error: Option<string>)

  datatype Response =
    | FileContent(path: string, content: string, size: nat)
    | DirListing(path: string, items: seq<Entry>)
    /** Status 403: the requested path cannot be stat'ed or read. */
    | Forbidden

  const ParentName := ".."
  const PermissionDenied := "Permission denied"

  /** `searchParams.get('path') || os.homedir()`. */
  function RequestPath(query: Option<string>, home: string): string
  {
    OrElse(query, home)
  }

  /** The entry for one directory item: a directory or a file when it can be
      stat'ed, an `unknown` entry with `Permission denied` when it cannot. */
  function ItemEntry(fs: map<string, Node>, ops: PathOps, dir: string, name: string): (e: Entry)
    ensures e.name == name && e.path == ops.join(dir, name)
    ensures e.kind == Unknown <==> ops.join(dir, name) !in fs
    ensures e.kind == Unknown ==> e.error == Some(PermissionDenied)
    ensures e.kind != Unknown ==> e.error.None? && (e.kind == Directory <==> fs[ops.join(dir, name)].DirNode?)
  {
    var p := ops.join(dir, name);
    if p in fs then Entry(name, p, if fs[p].DirNode? then Directory else File, None)
    else Entry(name, p, Unknown, Some(PermissionDenied))
  }

  /** `items.map(...)`: one entry per item, in `readdir` order. */
  function Entries(fs: map<string, Node>, ops: PathOps, dir: string, names: seq<string>): (r: seq<Entry>)
    ensures |r| == |names|
    ensures forall i :: 0 <= i < |names| ==> r[i] == ItemEntry(fs, ops, dir, names[i])
  {
    if names == [] then [] else [ItemEntry(fs, ops, dir, names[0])] + Entries(fs, ops, dir, names[1..])
  }

  function ParentEntry(ops: PathOps, dir: string): Entry
  {
    Entry(ParentName, ops.dirname(dir), Directory, None)
  }

  /** The entries before sorting: the items, with the parent entry put in
      front unless the directory is the root. */
  function WithParent(ops: PathOps, dir: string, entries: seq<Entry>): seq<Entry>
  {
    if dir != "/" then [ParentEntry(ops, dir)] + entries else entries
  }

  // ---------------------------------------------------------------------
  // The order of a listing.

  /** Character-code order on names, the model's `localeCompare`. */
  predicate NameLe(a: string, b: string)
    decreases |a|
  {
    a == [] || (b != [] && (a[0] < b[0] || (a[0] == b[0] && NameLe(a[1..], b[1..]))))
  }

  lemma {:induction false} NameLeTotal(a: string, b: string)
    ensures NameLe(a, b) || NameLe(b, a)
    decreases |a|
  {
    if a != [] && b != [] && a[0] == b[0] {
      NameLeTotal(a[1..], b[1..]);
    }
  }

  lemma {:induction false} NameLeTrans(a: string, b: string, c: string)
    requires NameLe(a, b) && NameLe(b, c)
    ensures NameLe(a, c)
    decreases |a|
  {
    if a != [] && b != [] && c != [] && a[0] == b[0] == c[0] {
      NameLeTrans(a[1..], b[1..], c[1..]);
    }
  }

  lemma {:induction false} NameLeAntisymmetric(a: string, b: string)
    requires NameLe(a, b) && NameLe(b, a)
    ensures a == b
    decreases |a|
  {
    if a != [] && b != [] {
      NameLeAntisymmetric(a[1..], b[1..]);
      assert a == [a[0]] + a[1..] && b == [b[0]] + b[1..];
    }
  }

  /** `a.localeCompare(b)` in the model. */
  function CompareNames(a: string, b: string): int
  {
    if a == b then 0 else if NameLe(a, b) then -1 else 1
  }

  /** The group of an entry: the parent entry, then directories, then
      everything else (files and unknown entries). */
  function Rank(e: Entry): nat
  {
    if e.name == ParentName then 0 else if e.kind == Directory then 1 else 2
  }

  /** The intended order: by group, then by name. */
  predicate EntryLe(a: Entry, b: Entry)
  {
    Rank(a) < Rank(b) || (Rank(a) == Rank(b) && NameLe(a.name, b.name))
  }

  /** The comparator passed to `sort`, as written. */
  function Compare(a: Entry, b: Entry): int
  {
    if a.name == ParentName then -1
    else if b.name == ParentName then 1
    else if a.kind == Directory && b.kind != Directory then -1
    else if a.kind != Directory && b.kind == Directory then 1
    else CompareNames(a.name, b.name)
  }

  /** The comparator puts `b` before `a` exactly when the intended order
      does not allow `a` before `b`. */
  lemma CompareAgrees(a: Entry, b: Entry)
    ensures Compare(a, b) > 0 <==> !EntryLe(a, b)
  {
    if a.name != ParentName && b.name != ParentName && Rank(a) == Rank(b) && a.name != b.name {
      NameLeTotal(a.name, b.name);
    }
    if a.name == ParentName && b.name == ParentName {
      NameLeTotal(a.name, b.name);
    }
    if a.name == b.name {
      NameLeTotal(a.name, b.name);
    }
  }

  lemma EntryLeTotal(a: Entry, b: Entry)
    ensures EntryLe(a, b) || EntryLe(b, a)
  {
    NameLeTotal(a.name, b.name);
  }

  lemma EntryLeTrans(a: Entry, b: Entry, c: Entry)
    requires EntryLe(a, b) && EntryLe(b, c)
    ensures EntryLe(a, c)
  {
    if Rank(a) == Rank(b) == Rank(c) {
      NameLeTrans(a.name, b.name, c.name);
    }
  }

  predicate Sorted(s: seq<Entry>)
  {
    forall i, j :: 0 <= i < j < |s| ==> EntryLe(s[i], s[j])
  }

  /** `s[..i + 1]` is sorted except for position `j`. */
  predicate SortedExcept(s: seq<Entry>, i: nat, j: nat)
    requires i < |s|
  {
    forall k, l :: 0 <= k < l <= i && k != j && l != j ==> EntryLe(s[k], s[l])
  }

  /** Position `j` may go before every later position up to `i`. */
  predicate BeforeRest(s: seq<Entry>, i: nat, j: nat)
    requires j <= i < |s|
  {
    forall l :: j < l <= i ==> EntryLe(s[j], s[l])
  }

  /** One swap of the insertion step keeps both facts, one place further left. */
  lemma SwapStep(s: seq<Entry>, i: nat, j: nat)
    requires 0 < j <= i < |s|
    requires SortedExcept(s, i, j) && BeforeRest(s, i, j) && !EntryLe(s[j - 1], s[j])
    ensures var t := s[j - 1 := s[j]][j := s[j - 1]];
      SortedExcept(t, i, j - 1) && BeforeRest(t, i, j - 1)
  {
    EntryLeTotal(s[j - 1], s[j]);
  }

  /** When the moving entry stops, the whole prefix is sorted. */
  lemma InsertDone(s: seq<Entry>, i: nat, j: nat)
    requires j <= i < |s|
    requires SortedExcept(s, i, j) && BeforeRest(s, i, j)
    requires j > 0 ==> EntryLe(s[j - 1], s[j])
    ensures forall k, l :: 0 <= k < l <= i ==> EntryLe(s[k], s[l])
  {
    if j > 0 {
      forall k | 0 <= k < j - 1 ensures EntryLe(s[k], s[j]) {
        EntryLeTrans(s[k], s[j - 1], s[j]);
      }
    }
  }

  /** Moves `a[i]` left into the sorted prefix `a[..i]`, one swap at a time,
      while the comparator says its left neighbour goes after it. */
  method Insert(a: array<Entry>, i: int)
    requires 0 < i < a.Length
    requires forall k, l :: 0 <= k < l < i ==> EntryLe(a[k], a[l])
    modifies a
    ensures forall k, l :: 0 <= k < l <= i ==> EntryLe(a[k], a[l])
    ensures multiset(a[..]) == old(multiset(a[..]))
    ensures a[i + 1..] == old(a[i + 1..])
  {
    var j := i;
    assert SortedExcept(a[..], i, j);
    while j > 0 && Compare(a[j - 1], a[j]) > 0
      invariant 0 <= j <= i
      invariant SortedExcept(a[..], i, j) && BeforeRest(a[..], i, j)
      invariant multiset(a[..]) == old(multiset(a[..]))
      invariant a[i + 1..] == old(a[i + 1..])
    {
      CompareAgrees(a[j - 1], a[j]);
      SwapStep(a[..], i, j);
      ghost var before := a[..];
      Swap(a, j);
      assert a[i + 1..] == before[i + 1..];
      j := j - 1;
    }
    if j > 0 {
      CompareAgrees(a[j - 1], a[j]);
    }
    InsertDone(a[..], i, j);
  }

  /** Exchanges `a[j - 1]` and `a[j]`. */
  method Swap(a: array<Entry>, j: int)
    requires 0 < j < a.Length
    modifies a
    ensures a[..] == old(a[..])[j - 1 := old(a[j])][j := old(a[j - 1])]
    ensures multiset(a[..]) == old(multiset(a[..]))
  {
    a[j - 1], a[j] := a[j], a[j - 1];
  }

  /** `itemsWithStats.sort(compare)`, in place: the array ends sorted and
      holds the same entries. */
  method SortEntries(a: array<Entry>)
    modifies a
    ensures Sorted(a[..])
    ensures multiset(a[..]) == old(multiset(a[..]))
  {
    if a.Length > 1 {
      for i := 1 to a.Length
        invariant forall k, l :: 0 <= k < l < i ==> EntryLe(a[k], a[l])
        invariant multiset(a[..]) == old(multiset(a[..]))
      {
        Insert(a, i);
      }
    }
  }

  /** The `GET` handler. */
  method Get(fs: map<string, Node>, ops: PathOps, home: string, query: Option<string>) returns (resp: Response)
    ensures var abs := ops.resolve(RequestPath(query, home));
      && (abs !in fs ==> resp == Forbidden)
      && (abs in fs && fs[abs].FileNode? ==>
            resp == if fs[abs].content.Some? then FileContent(abs, fs[abs].content.value, fs[abs].size) else Forbidden)
      && (abs in fs && fs[abs].DirNode? && fs[abs].children.None? ==> resp == Forbidden)
      && (abs in fs && fs[abs].DirNode? && fs[abs].children.Some? ==>
            && resp.DirListing? && resp.path == abs && Sorted(resp.items)
            && multiset(resp.items) == multiset(WithParent(ops, abs, Entries(fs, ops, abs, fs[abs].children.value))))
  {
    var abs := ops.resolve(RequestPath(query, home));
    if abs !in fs {
      return Forbidden;
    }
    match fs[abs]
    case FileNode(content, size) =>
      if content.None? {
        return Forbidden;
      }
      return FileContent(abs, content.value, size);
    case DirNode(children) =>
      if children.None? {
        return Forbidden;
      }
      var items := Entries(fs, ops, abs, children.value);
      if abs != "/" {
        items := [ParentEntry(ops, abs)] + items;
      }
      var arr := new Entry[|items|](k requires 0 <= k < |items| => items[k]);
      assert arr[..] == items;
      SortEntries(arr);
      return DirListing(abs, arr[..]);
  }

  // ---------------------------------------------------------------------
  // What a sorted listing looks like.

  /** Every entry of a listing is named after an item, or is the parent. */
  lemma EntryNames(fs: map<string, Node>, ops: PathOps, dir: string, names: seq<string>, e: Entry)
    requires e in WithParent(ops, dir, Entries(fs, ops, dir, names))
    ensures e.name in names || (dir != "/" && e == ParentEntry(ops, dir))
  {
    var es := Entries(fs, ops, dir, names);
    if e in es {
      var i :| 0 <= i < |es| && es[i] == e;
    }
  }

  /** A listing holds one entry per directory item, plus the parent entry
      unless the directory is the root; when the items (as `readdir`
      promises) never include `..`, the parent entry comes first and the
      root's listing has no `..` at all; directories come before everything
      else, and within each group names ascend. */
  lemma ListingShape(fs: map<string, Node>, ops: PathOps, dir: string, names: seq<string>, items: seq<Entry>)
    requires Sorted(items)
    requires multiset(items) == multiset(WithParent(ops, dir, Entries(fs, ops, dir, names)))
    requires ParentName !in names
    ensures |items| == |names| + (if dir != "/" then 1 else 0)
    ensures dir != "/" ==> items[0] == ParentEntry(ops, dir)
    ensures dir == "/" ==> forall e :: e in items ==> e.name != ParentName
    ensures forall i, j :: 0 <= i < j < |items| && items[i].kind != Directory ==> items[j].kind != Directory || items[j].name == ParentName
  {
    ListingMembers(fs, ops, dir, names, items);
    SortedGroups(items);
    if dir != "/" {
      var p := ParentEntry(ops, dir);
      var k :| 0 <= k < |items| && items[k] == p;
      if k != 0 {
        assert EntryLe(items[0], items[k]);
        assert items[0] in items;
      }
    }
  }

  /** The listing holds exactly the entries built from the items, so it is
      as long as they are, and each entry is an item or the parent entry. */
  lemma ListingMembers(fs: map<string, Node>, ops: PathOps, dir: string, names: seq<string>, items: seq<Entry>)
    requires multiset(items) == multiset(WithParent(ops, dir, Entries(fs, ops, dir, names)))
    ensures |items| == |names| + (if dir != "/" then 1 else 0)
    ensures forall e :: e in items ==> e.name in names || (dir != "/" && e == ParentEntry(ops, dir))
    ensures dir != "/" ==> ParentEntry(ops, dir) in items
  {
    var all := WithParent(ops, dir, Entries(fs, ops, dir, names));
    assert |items| == |multiset(items)| == |all|;
    forall e | e in items ensures e.name in names || (dir != "/" && e == ParentEntry(ops, dir)) {
      assert e in multiset(all);
      EntryNames(fs, ops, dir, names, e);
    }
    if dir != "/" {
      assert ParentEntry(ops, dir) in multiset(items) by {
        assert all[0] == ParentEntry(ops, dir);
      }
    }
  }

  /** In a sorted listing whose `..` entries are directories, nothing but
      `..` follows a non-directory unless it is a non-directory itself. */
  lemma SortedGroups(items: seq<Entry>)
    requires Sorted(items)
    requires forall e :: e in items && e.name == ParentName ==> e.kind == Directory
    ensures forall i, j :: 0 <= i < j < |items| && items[i].kind != Directory ==> items[j].kind != Directory || items[j].name == ParentName
  {
  }

  /** An item that cannot be stat'ed is still listed, as an `unknown` entry
      reporting `Permission denied`, and a stat failure on one item does
      not affect the others. */
  lemma UnknownEntries(fs: map<string, Node>, ops: PathOps, dir: string, names: seq<string>, i: nat)
    requires i < |names| && ops.join(dir, names[i]) !in fs
    ensures Entries(fs, ops, dir, names)[i] == Entry(names[i], ops.join(dir, names[i]), Unknown, Some(PermissionDenied))
  {
  }

  /** Without a `path` query parameter the home directory is listed. */
  lemma DefaultsToHome(home: string, query: Option<string>)
    requires query.None? || query == Some("")
    ensures RequestPath(query, home) == home
  {
  }
}
