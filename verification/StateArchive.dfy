/**
 State archives: a tree of folders and files flattened into named members, the checks
 made on the members of an archive, and their extraction onto a disk.

 The tar format itself is not modelled; an archive is the list of its members.
 */
module StateArchive {
  import opened Common

  // A path is the list of its components below the root of the disk.
  type Path = seq<string>

  const ROOT := "modeldeck-state"

  // ----- Trees, as they are found on disk -----

  // Special stands for what tar stores as neither a file nor a folder: symbolic links,
  // further hard links, devices.  A socket it passes over.
  datatype Node = File(content: string) | Special | Socket | Dir(children: Forest)
  datatype Forest = Empty | Entry(name: string, node: Node, rest: Forest)

  predicate ProperName(name: string) {
    name != "" && name != "." && name != ".." && '/' !in name
  }

  predicate Named(name: string, f: Forest) {
    f.Entry? && (f.name == name || Named(name, f.rest))
  }

  // The names a file system allows: proper, and distinct within a folder.
  predicate WellNamed(n: Node) {
    n.Dir? ==> WellNamedAll(n.children)
  }

  predicate WellNamedAll(f: Forest) {
    f.Entry? ==> ProperName(f.name) && !Named(f.name, f.rest) && WellNamed(f.node) && WellNamedAll(f.rest)
  }

  predicate Plain(n: Node) {
    !n.Special? && (n.Dir? ==> PlainAll(n.children))
  }

  predicate PlainAll(f: Forest) {
    f.Entry? ==> Plain(f.node) && PlainAll(f.rest)
  }

  // ----- Members -----

  datatype Kind = Regular | Folder | Other

  datatype Member = Member(name: string, kind: Kind, content: string)

  function Join(path: Path): string
    requires path != []
  {
    if |path| == 1 then path[0] else path[0] + "/" + Join(path[1..])
  }

  // What adding a tree recursively under this name stores.
  function Members(n: Node, path: Path): seq<Member>
    requires path != []
  {
    match n
    case File(content) => [Member(Join(path), Regular, content)]
    case Special => [Member(Join(path), Other, "")]
    case Socket => []
    case Dir(children) => [Member(Join(path), Folder, "")] + MembersOf(children, path)
  }

  function MembersOf(f: Forest, path: Path): seq<Member>
    requires path != []
  {
    match f
    case Empty => []
    case Entry(name, node, rest) => Members(node, path + [name]) + MembersOf(rest, path)
  }

  // ----- Reading member names -----

  function Split(s: string): (words: seq<string>)
    ensures words != []
  {
    if s == "" then [""]
    else
      var rest := Split(s[1..]);
      if s[0] == '/' then [""] + rest else [[s[0]] + rest[0]] + rest[1..]
  }

  function Significant(words: seq<string>): seq<string> {
    if words == [] then []
    else (if words[0] == "" || words[0] == "." then [] else [words[0]]) + Significant(words[1..])
  }

  // The components of a POSIX path: empty ones and single dots do not count.
  function Parts(name: string): Path {
    Significant(Split(name))
  }

  predicate Absolute(name: string) {
    name != "" && name[0] == '/'
  }

  predicate Safe(name: string) {
    var parts := Parts(name);
    !Absolute(name) && ".." !in parts && parts != [] && parts[0] == ROOT
  }

  datatype ArchiveError = EmptyArchive | UnsafePath | DuplicatePath | UnsupportedType | Unreadable

  // The first objection to the members, given the paths seen before them.
  function Objection(members: seq<Member>, seen: set<Path>): Option<ArchiveError> {
    if members == [] then None
    else
      var m := members[0];
      if !Safe(m.name) then Some(UnsafePath)
      else if Parts(m.name) in seen then Some(DuplicatePath)
      else if m.kind == Other then Some(UnsupportedType)
      else Objection(members[1..], seen + {Parts(m.name)})
  }

  function Refusal(members: seq<Member>): Option<ArchiveError> {
    if members == [] then Some(EmptyArchive) else Objection(members, {})
  }

  // ----- The disk -----

  // Link is a symbolic link.
  datatype Item = Directory | Document(content: string) | Link

  type Entries = map<Path, Item>

  function Parent(p: Path): Path
    requires p != []
  {
    p[..|p| - 1]
  }

  // The root is a folder and everything lies in a folder.
  ghost predicate WellFormed(e: Entries) {
    && [] in e && e[[]] == Directory
    && forall p {:trigger Parent(p)} :: p in e && p != [] ==> Parent(p) in e && e[Parent(p)] == Directory
  }

  // No file is in the way of making this folder and those above it.
  ghost predicate CanMake(e: Entries, p: Path) {
    forall q :: q in e && q <= p ==> e[q] == Directory
  }

  function Prefixes(p: Path): (s: set<Path>)
    ensures forall q :: q in s <==> q <= p
  {
    if p == [] then {[]}
    else
      var above := Prefixes(Parent(p));
      OneMorePrefix(p, above);
      above + {p}
  }

  lemma OneMorePrefix(p: Path, above: set<Path>)
    requires p != [] && forall q :: q in above <==> q <= Parent(p)
    ensures forall q :: q in above + {p} <==> q <= p
  {
    forall q ensures q in above + {p} <==> q <= p {
      PrefixOfParent(q, p);
    }
  }

  lemma PrefixOfParent(q: Path, p: Path)
    requires p != []
    ensures q <= p <==> q == p || q <= Parent(p)
  {
  }

  function WithFolders(e: Entries, p: Path): Entries {
    e + map q | q in Prefixes(p) :: Directory
  }

  // The path the disk reaches: a double dot steps back.
  function Resolve(p: Path): Path {
    if p == [] then []
    else
      var r := Resolve(Parent(p));
      if p[|p| - 1] != ".." then r + [p[|p| - 1]] else if r == [] then [] else Parent(r)
  }

  // Where a member goes: below the destination, without its first component.
  function Target(dest: Path, m: Member): Path {
    var parts := Parts(m.name);
    Resolve(dest + if parts == [] then [] else parts[1..])
  }

  // The disk after one member, and whether it could be written.
  ghost function Place(e: Entries, dest: Path, m: Member): (Entries, bool) {
    var target := Target(dest, m);
    if m.kind == Folder then
      if CanMake(e, target) then (WithFolders(e, target), true) else (e, false)
    else if target == [] || !CanMake(e, Parent(target)) then (e, false)
    else if target in e then (WithFolders(e, Parent(target)), false)
    else (WithFolders(e, Parent(target))[target := Document(m.content)], true)
  }

  ghost function PlaceAll(e: Entries, dest: Path, members: seq<Member>): (Entries, bool)
    decreases |members|
  {
    if members == [] then (e, true)
    else
      var placed := Place(e, dest, members[0]);
      if placed.1 then PlaceAll(placed.0, dest, members[1..]) else placed
  }

  lemma {:induction false} AncestorsAreFolders(e: Entries, q: Path, p: Path)
    requires WellFormed(e) && p in e && q < p
    ensures q in e && e[q] == Directory
    decreases |p|
  {
    if q != Parent(p) {
      AncestorsAreFolders(e, q, Parent(p));
    }
  }

  // A folder that exists can be made again without effect.
  lemma ExistingFolder(e: Entries, p: Path)
    requires WellFormed(e) && p in e
    ensures CanMake(e, p) <==> e[p] == Directory
    ensures e[p] == Directory ==> WithFolders(e, p) == e
  {
    forall q | q in Prefixes(p) && q != p ensures q in e && e[q] == Directory {
      AncestorsAreFolders(e, q, p);
    }
  }

  lemma MissingFolder(e: Entries, p: Path)
    requires p != [] && p !in e
    ensures CanMake(e, p) <==> CanMake(e, Parent(p))
    ensures WithFolders(e, p) == WithFolders(e, Parent(p))[p := Directory]
  {
    forall q | q in e ensures q <= p <==> q == p || q <= Parent(p) {
      PrefixOfParent(q, p);
    }
    OneMorePrefix(p, Prefixes(Parent(p)));
  }

  lemma FoldersKeepForm(e: Entries, p: Path)
    requires WellFormed(e) && CanMake(e, p)
    ensures WellFormed(WithFolders(e, p))
  {
  }

  class Disk {
    var entries: Entries

    ghost predicate Valid()
      reads this
    {
      WellFormed(entries)
    }

    constructor (entries: Entries)
      requires WellFormed(entries)
      ensures Valid() && this.entries == entries
    {
      this.entries := entries;
    }

    // mkdir with parents, accepting folders that exist.
    method MakeFolders(p: Path) returns (ok: bool)
      requires Valid()
      modifies this
      ensures Valid()
      ensures ok == CanMake(old(entries), p)
      ensures entries == if ok then WithFolders(old(entries), p) else old(entries)
      decreases |p|
    {
      if p in entries {
        ExistingFolder(entries, p);
        return entries[p] == Directory;
      }
      MissingFolder(entries, p);
      ok := MakeFolders(Parent(p));
      if ok {
        entries := entries[p := Directory];
      }
    }

    // Open for exclusive creation and copy the content.
    method CreateNew(p: Path, content: string) returns (ok: bool)
      requires Valid() && p != [] && Parent(p) in entries && entries[Parent(p)] == Directory
      modifies this
      ensures Valid()
      ensures ok == (p !in old(entries))
      ensures entries == if ok then old(entries)[p := Document(content)] else old(entries)
    {
      if p in entries {
        return false;
      }
      entries := entries[p := Document(content)];
      return true;
    }

    /** Check an archive and extract it below `dest`.  Nothing is written unless every
        member is acceptable; a failing write stops the extraction where it is. */
    method Extract(members: seq<Member>, dest: Path) returns (error: Option<ArchiveError>)
      requires Valid()
      modifies this
      ensures Valid()
      ensures Refusal(members).Some? ==> error == Refusal(members) && entries == old(entries)
      ensures Refusal(members).None? ==>
        && entries == PlaceAll(old(entries), dest, members).0
        && error == if PlaceAll(old(entries), dest, members).1 then None else Some(Unreadable)
    {
      error := CheckMembers(members);
      if error.Some? {
        return error;
      }
      var i := 0;
      while i < |members|
        invariant 0 <= i <= |members| && Valid()
        invariant PlaceAll(old(entries), dest, members) == PlaceAll(entries, dest, members[i..])
      {
        assert members[i..][0] == members[i] && members[i..][1..] == members[i + 1..];
        var ok := ExtractMember(members[i], dest);
        if !ok {
          return Some(Unreadable);
        }
        i := i + 1;
      }
      return None;
    }

    method ExtractMember(m: Member, dest: Path) returns (ok: bool)
      requires Valid()
      modifies this
      ensures Valid()
      ensures (entries, ok) == Place(old(entries), dest, m)
    {
      var target := Target(dest, m);
      if m.kind == Folder {
        ok := MakeFolders(target);
        return ok;
      }
      if target == [] {
        return false;
      }
      ok := MakeFolders(Parent(target));
      if ok {
        ok := CreateNew(target, m.content);
      }
    }
  }

  method CheckMembers(members: seq<Member>) returns (error: Option<ArchiveError>)
    ensures error == Refusal(members)
  {
    if members == [] {
      return Some(EmptyArchive);
    }
    var seen: set<Path> := {};
    for i := 0 to |members|
      invariant Objection(members, {}) == Objection(members[i..], seen)
    {
      assert members[i..][0] == members[i] && members[i..][1..] == members[i + 1..];
      var path := Parts(members[i].name);
      if !Safe(members[i].name) {
        return Some(UnsafePath);
      }
      if path in seen {
        return Some(DuplicatePath);
      }
      seen := seen + {path};
      if members[i].kind == Other {
        return Some(UnsupportedType);
      }
    }
    return None;
  }
}
