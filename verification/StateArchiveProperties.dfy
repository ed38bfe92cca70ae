/**
 What exporting and importing a state archive guarantee: any tree of folders and files
 comes back exactly, an extraction never leaves its destination nor overwrites
 anything, and exactly which accepted archives can be extracted.
 */
module StateArchiveProperties {
  import opened Common
  import opened StateArchive

  // ----- Names -----

  predicate AllProper(path: Path) {
    forall i :: 0 <= i < |path| ==> ProperName(path[i])
  }

  lemma {:induction false} SplitWord(w: string, s: string)
    requires '/' !in w
    ensures Split(w) == [w]
    ensures Split(w + "/" + s) == [w] + Split(s)
  {
    if w == "" {
      assert (w + "/" + s)[1..] == s;
    } else {
      SplitWord(w[1..], s);
      assert (w + "/" + s)[1..] == w[1..] + "/" + s;
      assert [w[0]] + w[1..] == w;
    }
  }

  lemma {:induction false} NamesComeBack(path: Path)
    requires path != [] && AllProper(path)
    ensures Parts(Join(path)) == path
  {
    if |path| == 1 {
      SplitWord(path[0], "");
      assert path == [path[0]];
      assert Significant([path[0]]) == [path[0]] + Significant([path[0]][1..]);
    } else {
      SplitWord(path[0], Join(path[1..]));
      NamesComeBack(path[1..]);
      var words := Split(Join(path));
      assert words[0] == path[0] && words[1..] == Split(Join(path[1..]));
      assert path == [path[0]] + path[1..];
    }
  }

  lemma ProperMemberIsSafe(path: Path)
    requires path != [] && path[0] == ROOT && AllProper(path)
    ensures Safe(Join(path)) && Parts(Join(path)) == path
  {
    NamesComeBack(path);
    assert ".." !in path;
  }

  lemma {:induction false} ResolvedAlready(p: Path)
    requires ".." !in p
    ensures Resolve(p) == p
  {
    if p != [] {
      ResolvedAlready(Parent(p));
      assert p == Parent(p) + [p[|p| - 1]];
    }
  }

  // A safe member goes where its name says, at or below the destination.
  lemma SafeTarget(dest: Path, m: Member)
    requires ".." !in dest && Safe(m.name)
    ensures Target(dest, m) == dest + Parts(m.name)[1..]
    ensures dest <= Target(dest, m)
  {
    ResolvedAlready(dest + Parts(m.name)[1..]);
  }

  // ----- Exported members are accepted -----

  function PathsOf(members: seq<Member>): set<Path> {
    set i | 0 <= i < |members| :: Parts(members[i].name)
  }

  lemma {:induction false} ObjectionOfBoth(a: seq<Member>, b: seq<Member>, seen: set<Path>)
    ensures Objection(a + b, seen)
         == if Objection(a, seen).Some? then Objection(a, seen) else Objection(b, seen + PathsOf(a))
  {
    if a == [] {
      assert a + b == b && seen + PathsOf(a) == seen;
    } else {
      ObjectionOfBoth(a[1..], b, seen + {Parts(a[0].name)});
      assert (a + b)[1..] == a[1..] + b;
      PathsOfRest(a);
      assert seen + {Parts(a[0].name)} + PathsOf(a[1..]) == seen + PathsOf(a);
    }
  }

  lemma PathsOfRest(a: seq<Member>)
    requires a != []
    ensures PathsOf(a) == {Parts(a[0].name)} + PathsOf(a[1..])
  {
  }

  lemma PathsOfBoth(a: seq<Member>, b: seq<Member>)
    ensures PathsOf(a + b) == PathsOf(a) + PathsOf(b)
  {
    forall p | p in PathsOf(a) + PathsOf(b) ensures p in PathsOf(a + b) {
      if p in PathsOf(a) {
        var i :| 0 <= i < |a| && Parts(a[i].name) == p;
        assert (a + b)[i] == a[i];
      } else {
        var i :| 0 <= i < |b| && Parts(b[i].name) == p;
        assert (a + b)[|a| + i] == b[i];
      }
    }
  }

  // Nothing in the set is at or below this path.
  ghost predicate Untouched(paths: set<Path>, path: Path) {
    forall q :: q in paths ==> !(path <= q)
  }

  ghost predicate AllBelow(paths: set<Path>, path: Path) {
    forall q :: q in paths ==> path <= q
  }

  lemma SiblingsApart(path: Path, n: string, n': string, paths: set<Path>)
    requires n != n' && AllBelow(paths, path + [n])
    ensures Untouched(paths, path + [n'])
  {
    forall q | q in paths ensures !(path + [n'] <= q) {
      assert q[|path|] == n;
    }
  }

  lemma {:induction false} NodeAccepted(n: Node, path: Path, seen: set<Path>)
    requires path != [] && path[0] == ROOT && AllProper(path)
    requires WellNamed(n) && Untouched(seen, path)
    ensures Objection(Members(n, path), seen) == if Plain(n) then None else Some(UnsupportedType)
    ensures AllBelow(PathsOf(Members(n, path)), path)
    decreases n
  {
    hide Safe, Parts, Join;
    ProperMemberIsSafe(path);
    var all := Members(n, path);
    assert PathsOf([]) == {};
    if n.Socket? {
      return;
    }
    PathsOfRest(all);
    if n.Dir? {
      var own := [all[0]];
      assert all == own + MembersOf(n.children, path) && all[1..] == MembersOf(n.children, path);
      assert Objection(all, seen) == Objection(all[1..], seen + {path});
      ForestAccepted(n.children, path, seen + {path});
    } else {
      assert all[1..] == [];
    }
  }

  lemma {:induction false} ForestAccepted(f: Forest, path: Path, seen: set<Path>)
    requires path != [] && path[0] == ROOT && AllProper(path)
    requires WellNamedAll(f)
    requires forall name :: Named(name, f) ==> Untouched(seen, path + [name])
    ensures Objection(MembersOf(f, path), seen) == if PlainAll(f) then None else Some(UnsupportedType)
    ensures AllBelow(PathsOf(MembersOf(f, path)), path)
    decreases f
  {
    hide Parts, Join, Untouched, ProperName;
    if f.Entry? {
      var first, rest := Members(f.node, path + [f.name]), MembersOf(f.rest, path);
      assert AllProper(path + [f.name]);
      NodeAccepted(f.node, path + [f.name], seen);
      ObjectionOfBoth(first, rest, seen);
      PathsOfBoth(first, rest);
      forall name | Named(name, f.rest) ensures Untouched(seen + PathsOf(first), path + [name]) {
        SiblingsApart(path, f.name, name, PathsOf(first));
        UntouchedByBoth(seen, PathsOf(first), path + [name]);
      }
      ForestAccepted(f.rest, path, seen + PathsOf(first));
    }
  }

  lemma UntouchedByBoth(a: set<Path>, b: set<Path>, path: Path)
    requires Untouched(a, path) && Untouched(b, path)
    ensures Untouched(a + b, path)
  {
  }

  /** Exporting a tree gives an archive that the import accepts exactly when the tree
      holds nothing but folders, files and sockets; otherwise it is refused for that
      reason, or as empty if it is itself a socket. */
  lemma ExportIsAcceptedExactlyWhenPlain(n: Node)
    requires WellNamed(n)
    ensures Refusal(Members(n, [ROOT])) ==
      if n.Socket? then Some(EmptyArchive) else if Plain(n) then None else Some(UnsupportedType)
  {
    NodeAccepted(n, [ROOT], {});
  }

  // ----- The round trip -----

  // A tree lying at this path, without its sockets.
  function Laid(n: Node, p: Path): Entries {
    match n
    case File(content) => map[p := Document(content)]
    case Special => map[]
    case Socket => map[]
    case Dir(children) => map[p := Directory] + LaidAll(children, p)
  }

  function LaidAll(f: Forest, p: Path): Entries {
    match f
    case Empty => map[]
    case Entry(name, node, rest) => Laid(node, p + [name]) + LaidAll(rest, p)
  }

  lemma {:induction false} LaidBelow(n: Node, p: Path)
    ensures AllBelow(Laid(n, p).Keys, p)
    decreases n
  {
    if n.Dir? {
      LaidAllBelow(n.children, p);
    }
  }

  lemma {:induction false} LaidAllBelow(f: Forest, p: Path)
    ensures AllBelow(LaidAll(f, p).Keys, p)
    decreases f
  {
    if f.Entry? {
      LaidBelow(f.node, p + [f.name]);
      LaidAllBelow(f.rest, p);
    }
  }

  lemma {:induction false} PlaceBoth(e: Entries, dest: Path, a: seq<Member>, b: seq<Member>)
    ensures PlaceAll(e, dest, a + b)
         == if PlaceAll(e, dest, a).1 then PlaceAll(PlaceAll(e, dest, a).0, dest, b) else PlaceAll(e, dest, a)
    decreases |a|
  {
    hide Place;
    if a == [] {
      assert a + b == b;
    } else {
      assert (a + b)[1..] == a[1..] + b;
      PlaceBoth(Place(e, dest, a[0]).0, dest, a[1..], b);
    }
  }

  lemma PlaceOne(e: Entries, dest: Path, m: Member)
    ensures PlaceAll(e, dest, [m]) == Place(e, dest, m)
  {
  }

  lemma PlaceKeepsForm(e: Entries, dest: Path, m: Member)
    requires WellFormed(e)
    ensures WellFormed(Place(e, dest, m).0)
  {
    hide CanMake, WithFolders, Resolve;
    var target := Target(dest, m);
    if m.kind == Folder {
      if CanMake(e, target) {
        FoldersKeepForm(e, target);
      }
    } else if target != [] && CanMake(e, Parent(target)) {
      FoldersKeepForm(e, Parent(target));
      FolderIsThere(e, Parent(target));
      NotAboveItself(e, target);
    }
  }

  lemma FolderIsThere(e: Entries, p: Path)
    ensures p in WithFolders(e, p) && WithFolders(e, p)[p] == Directory
  {
  }

  lemma NotAboveItself(e: Entries, p: Path)
    requires p != []
    ensures p in WithFolders(e, Parent(p)) <==> p in e
  {
  }

  // One member whose parent is there and whose own path is free.
  lemma PlaceFree(e: Entries, dest: Path, m: Member)
    requires WellFormed(e) && m.kind != Other
    requires Target(dest, m) != [] && Target(dest, m) !in e
    requires Parent(Target(dest, m)) in e && e[Parent(Target(dest, m))] == Directory
    ensures Place(e, dest, m)
         == (e[Target(dest, m) := if m.kind == Folder then Directory else Document(m.content)], true)
    ensures WellFormed(Place(e, dest, m).0)
  {
    hide CanMake, WithFolders, Target;
    PlaceKeepsForm(e, dest, m);
    var target := Target(dest, m);
    MissingFolder(e, target);
    ExistingFolder(e, Parent(target));
  }

  lemma MemberGoesTo(dest: Path, rel: Path, kind: Kind, content: string)
    requires ".." !in dest && AllProper(rel)
    ensures Target(dest, Member(Join([ROOT] + rel), kind, content)) == dest + rel
  {
    ProperMemberIsSafe([ROOT] + rel);
    SafeTarget(dest, Member(Join([ROOT] + rel), kind, content));
  }

  lemma HeadLaid(e: Entries, dest: Path, rel: Path, kind: Kind, content: string)
    requires WellFormed(e) && ".." !in dest && AllProper(rel) && kind != Other
    requires dest + rel != [] && Parent(dest + rel) in e && e[Parent(dest + rel)] == Directory
    requires Untouched(e.Keys, dest + rel)
    ensures
      var after := e[dest + rel := if kind == Folder then Directory else Document(content)];
      Place(e, dest, Member(Join([ROOT] + rel), kind, content)) == (after, true) && WellFormed(after)
  {
    hide Place, Target, Join, WellFormed, AllProper;
    MemberGoesTo(dest, rel, kind, content);
    assert dest + rel <= dest + rel;
    PlaceFree(e, dest, Member(Join([ROOT] + rel), kind, content));
  }

  lemma {:induction false} NodeLaid(e: Entries, dest: Path, n: Node, rel: Path)
    requires WellFormed(e) && ".." !in dest && AllProper(rel) && WellNamed(n) && Plain(n)
    requires dest + rel != [] && Parent(dest + rel) in e && e[Parent(dest + rel)] == Directory
    requires Untouched(e.Keys, dest + rel)
    ensures PlaceAll(e, dest, Members(n, [ROOT] + rel)) == (e + Laid(n, dest + rel), true)
    ensures WellFormed(e + Laid(n, dest + rel))
    decreases n
  {
    hide Place, PlaceAll, Target, Join, WellFormed, Untouched, AllProper;
    var p := dest + rel;
    var members := Members(n, [ROOT] + rel);
    if n.Socket? {
      assert e + Laid(n, p) == e;
      NothingToPlace(e, dest);
      return;
    }
    var own := members[0];
    HeadLaid(e, dest, rel, own.kind, own.content);
    PlaceOne(e, dest, own);
    if n.Dir? {
      var after := e[p := Directory];
      assert members == [own] + MembersOf(n.children, [ROOT] + rel);
      PlaceBoth(e, dest, [own], MembersOf(n.children, [ROOT] + rel));
      forall name | Named(name, n.children) ensures Untouched(after.Keys, p + [name]) {
        ChildUntouched(e, p, name);
      }
      ForestLaid(after, dest, n.children, rel);
      assert after + LaidAll(n.children, p) == e + Laid(n, p);
    } else {
      assert members == [own];
      assert e[p := Document(n.content)] == e + Laid(n, p);
    }
  }

  lemma ChildUntouched(e: Entries, p: Path, name: string)
    requires Untouched(e.Keys, p)
    ensures Untouched(e[p := Directory].Keys, p + [name])
  {
  }

  lemma {:induction false} ForestLaid(e: Entries, dest: Path, f: Forest, rel: Path)
    requires WellFormed(e) && ".." !in dest && AllProper(rel) && WellNamedAll(f) && PlainAll(f)
    requires dest + rel in e && e[dest + rel] == Directory
    requires forall name :: Named(name, f) ==> Untouched(e.Keys, dest + rel + [name])
    ensures PlaceAll(e, dest, MembersOf(f, [ROOT] + rel)) == (e + LaidAll(f, dest + rel), true)
    ensures WellFormed(e + LaidAll(f, dest + rel))
    decreases f
  {
    hide PlaceAll, WellFormed, Untouched, AllBelow, ProperName;
    var p := dest + rel;
    if f.Empty? {
      assert e + LaidAll(f, p) == e;
      NothingToPlace(e, dest);
    } else {
      var child := rel + [f.name];
      assert AllProper(child) && dest + child == p + [f.name] && Parent(p + [f.name]) == p;
      assert [ROOT] + rel + [f.name] == [ROOT] + child;
      NodeLaid(e, dest, f.node, child);
      var after := e + Laid(f.node, p + [f.name]);
      PlaceBoth(e, dest, Members(f.node, [ROOT] + child), MembersOf(f.rest, [ROOT] + rel));
      LaidBelow(f.node, p + [f.name]);
      forall name | Named(name, f.rest) ensures Untouched(after.Keys, p + [name]) {
        SiblingsApart(p, f.name, name, Laid(f.node, p + [f.name]).Keys);
        UntouchedByBoth(e.Keys, Laid(f.node, p + [f.name]).Keys, p + [name]);
        assert after.Keys == e.Keys + Laid(f.node, p + [f.name]).Keys;
      }
      ForestLaid(after, dest, f.rest, rel);
      assert after + LaidAll(f.rest, p) == e + LaidAll(f, p);
    }
  }

  lemma NothingToPlace(e: Entries, dest: Path)
    ensures PlaceAll(e, dest, []) == (e, true)
  {
  }

  /** The round trip.  Exporting any tree of folders and files and extracting it where
      nothing lies yet succeeds, puts exactly that tree, less any sockets, at the
      destination and changes nothing else. */
  lemma ArchiveRoundTrip(n: Node, e: Entries, dest: Path)
    requires WellNamed(n) && Plain(n) && !n.Socket?
    requires WellFormed(e) && dest != [] && ".." !in dest
    requires Parent(dest) in e && e[Parent(dest)] == Directory && Untouched(e.Keys, dest)
    ensures Refusal(Members(n, [ROOT])).None?
    ensures PlaceAll(e, dest, Members(n, [ROOT])) == (e + Laid(n, dest), true)
    ensures AllBelow(Laid(n, dest).Keys, dest)
  {
    hide WellFormed, Untouched, PlaceAll, Laid;
    ExportIsAcceptedExactlyWhenPlain(n);
    assert dest + [] == dest && [ROOT] + [] == [ROOT];
    NodeLaid(e, dest, n, []);
    LaidBelow(n, dest);
  }

  // ----- What the checks accept -----

  lemma {:induction false} SplitBoth(a: string, b: string)
    ensures Split(a + "/" + b) == Split(a) + Split(b)
  {
    if a == "" {
      assert a + "/" + b == "/" + b && ("/" + b)[1..] == b;
    } else {
      SplitBoth(a[1..], b);
      var rest, t := Split(a[1..]), a + "/" + b;
      assert t[1..] == a[1..] + "/" + b && t[0] == a[0];
      HeadSplits(a[0], rest, Split(b));
    }
  }

  lemma HeadSplits(c: char, rest: seq<string>, more: seq<string>)
    requires rest != []
    ensures [""] + (rest + more) == [""] + rest + more
    ensures [[c] + (rest + more)[0]] + (rest + more)[1..] == [[c] + rest[0]] + rest[1..] + more
  {
  }

  lemma {:induction false} SignificantBoth(a: seq<string>, b: seq<string>)
    ensures Significant(a + b) == Significant(a) + Significant(b)
  {
    if a == [] {
      assert a + b == b;
    } else {
      SignificantBoth(a[1..], b);
      var head := if a[0] == "" || a[0] == "." then [] else [a[0]];
      assert (a + b)[1..] == a[1..] + b && (a + b)[0] == a[0];
      Regroup(head, Significant(a[1..]), Significant(b));
    }
  }

  lemma Regroup(a: seq<string>, b: seq<string>, c: seq<string>)
    ensures a + (b + c) == a + b + c
  {
  }

  /** How a member name is read: as the components between its slashes, of which empty ones
      and single dots do not count and every other counts as it is. */
  lemma PartsExactly(a: string, b: string, word: string)
    requires '/' !in word
    ensures Parts(a + "/" + b) == Parts(a) + Parts(b)
    ensures Parts(word) == if word == "" || word == "." then [] else [word]
  {
    SplitBoth(a, b);
    SignificantBoth(Split(a), Split(b));
    SplitWord(word, "");
    assert [word][1..] == [];
    assert Significant([word]) == (if word == "" || word == "." then [] else [word]) + Significant([]);
  }

  // Member i may stand in an archive after those before it.
  predicate Acceptable(members: seq<Member>, i: nat)
    requires i < |members|
  {
    IsConfined(members[i].name) && IsNew(members, i) && members[i].kind != Other
  }

  // A relative path without a double dot, starting with the archive's root folder.
  predicate IsConfined(name: string) {
    && (name == "" || name[0] != '/') && ".." !in Parts(name)
    && Parts(name) != [] && Parts(name)[0] == "modeldeck-state"
  }

  // No member before it has the same path, however that is written.
  predicate IsNew(members: seq<Member>, i: nat)
    requires i < |members|
  {
    forall j :: 0 <= j < i ==> Parts(members[j].name) != Parts(members[i].name)
  }

  lemma {:induction false} ObjectionExactly(members: seq<Member>, n: nat, seen: set<Path>) returns (i: nat)
    requires n <= |members|
    requires forall p :: p in seen <==> exists j :: 0 <= j < n && Parts(members[j].name) == p
    ensures n <= i <= |members| && forall j :: n <= j < i ==> Acceptable(members, j)
    ensures Objection(members[n..], seen) ==
      if i == |members| then None
      else if !IsConfined(members[i].name) then Some(UnsafePath)
      else if !IsNew(members, i) then Some(DuplicatePath)
      else Some(UnsupportedType)
    ensures i < |members| ==> !Acceptable(members, i)
    decreases |members| - n
  {
    hide Parts;
    if n == |members| || !Acceptable(members, n) {
      i := n;
    } else {
      assert members[n..][0] == members[n] && members[n..][1..] == members[n + 1..];
      i := ObjectionExactly(members, n + 1, seen + {Parts(members[n].name)});
    }
  }

  /** The checks accept an archive exactly if it has members and each of them is a file or
      folder, confined to the root folder, at a path of its own; otherwise the first member
      that is not decides the error: an unsafe path before a duplicate, and a duplicate
      before an unsupported type. */
  lemma RefusalExactly(members: seq<Member>) returns (i: nat)
    ensures i <= |members| && forall j :: 0 <= j < i ==> Acceptable(members, j)
    ensures i < |members| ==> !Acceptable(members, i)
    ensures Refusal(members) ==
      if members == [] then Some(EmptyArchive)
      else if i == |members| then None
      else if !IsConfined(members[i].name) then Some(UnsafePath)
      else if !IsNew(members, i) then Some(DuplicatePath)
      else Some(UnsupportedType)
  {
    assert members[0..] == members;
    i := ObjectionExactly(members, 0, {});
  }

  // ----- Containment -----

  // Everything that was there is still there, and everything new is at or below the
  // destination or a folder on the way to it.
  ghost predicate Contained(before: Entries, after: Entries, dest: Path) {
    && (forall q :: q in before ==> q in after && after[q] == before[q])
    && (forall q :: q in after && q !in before ==> dest <= q || (q <= dest && after[q] == Directory))
  }

  lemma FoldersContained(e: Entries, p: Path, dest: Path)
    requires CanMake(e, p) && (dest <= p || p <= dest)
    ensures Contained(e, WithFolders(e, p), dest)
  {
  }

  lemma PlaceContained(e: Entries, dest: Path, m: Member)
    requires ".." !in dest && Safe(m.name)
    ensures Contained(e, Place(e, dest, m).0, dest)
  {
    hide CanMake, WithFolders, Target, Safe;
    SafeTarget(dest, m);
    var target := Target(dest, m);
    if m.kind == Folder {
      if CanMake(e, target) {
        FoldersContained(e, target, dest);
      }
    } else if target != [] && CanMake(e, Parent(target)) {
      assert dest <= Parent(target) || Parent(target) <= dest by {
        PrefixOfParent(dest, target);
        assert dest == target ==> Parent(target) <= dest;
      }
      FoldersContained(e, Parent(target), dest);
      NotAboveItself(e, target);
    }
  }

  lemma ContainedChains(a: Entries, b: Entries, c: Entries, dest: Path)
    requires Contained(a, b, dest) && Contained(b, c, dest)
    ensures Contained(a, c, dest)
  {
  }

  ghost predicate AllSafe(members: seq<Member>) {
    forall i :: 0 <= i < |members| ==> Safe(members[i].name) && members[i].kind != Other
  }

  lemma {:induction false} PlaceAllContained(e: Entries, dest: Path, members: seq<Member>)
    requires ".." !in dest && AllSafe(members)
    ensures Contained(e, PlaceAll(e, dest, members).0, dest)
    decreases |members|
  {
    hide Place, Contained;
    if members == [] {
      NothingChanged(e, dest);
    } else {
      PlaceContained(e, dest, members[0]);
      var placed := Place(e, dest, members[0]);
      PlaceAllContained(placed.0, dest, members[1..]);
      ContainedChains(e, placed.0, PlaceAll(placed.0, dest, members[1..]).0, dest);
    }
  }

  lemma NothingChanged(e: Entries, dest: Path)
    ensures Contained(e, e, dest)
  {
  }

  lemma {:induction false} NoObjection(members: seq<Member>, seen: set<Path>)
    requires Objection(members, seen).None?
    ensures AllSafe(members)
    ensures forall i :: 0 <= i < |members| ==> Parts(members[i].name) !in seen
    ensures forall i, j :: 0 <= i < j < |members| ==> Parts(members[i].name) != Parts(members[j].name)
  {
    hide Safe, Parts;
    if members != [] {
      var rest := members[1..];
      NoObjection(rest, seen + {Parts(members[0].name)});
      assert forall i :: 0 < i < |members| ==> members[i] == rest[i - 1];
    }
  }

  /** Whatever archive passes the checks, and however its extraction ends, nothing that
      existed is changed or removed and nothing appears outside the destination but the
      folders leading to it. */
  lemma ExtractionIsContained(e: Entries, dest: Path, members: seq<Member>)
    requires ".." !in dest && Refusal(members).None?
    ensures Contained(e, PlaceAll(e, dest, members).0, dest)
  {
    NoObjection(members, {});
    PlaceAllContained(e, dest, members);
  }

  // ----- Exactly which accepted archives can be extracted -----

  // A file's path lies strictly above another member's.
  ghost predicate FileAboveMember(members: seq<Member>) {
    exists i, j :: 0 <= i < |members| && 0 <= j < |members|
      && members[i].kind == Regular && Parts(members[i].name) < Parts(members[j].name)
  }

  // The extracted disk, told from the members without regard to their order.
  ghost predicate Extracted(e: Entries, after: Entries, dest: Path, members: seq<Member>) {
    && (forall q :: q in after <==> q in e || exists m :: m in members && OnTheWay(q, dest, m))
    && (forall q :: q in e ==> q in after && after[q] == e[q])
    && (forall q :: q in after && q !in e && after[q] != Directory ==>
          exists m :: m in members && m.kind == Regular && Target(dest, m) == q && after[q] == Document(m.content))
    && (forall m :: m in members && m.kind == Regular ==>
          Target(dest, m) in after && after[Target(dest, m)] == Document(m.content))
  }

  ghost predicate OnTheWay(q: Path, dest: Path, m: Member) {
    q <= Target(dest, m)
  }

  lemma {:induction false} PlaceLast(e: Entries, dest: Path, members: seq<Member>)
    requires members != []
    ensures
      var init := PlaceAll(e, dest, members[..|members| - 1]);
      PlaceAll(e, dest, members) == if init.1 then Place(init.0, dest, Last(members)) else init
  {
    hide Place;
    assert members == members[..|members| - 1] + [Last(members)];
    PlaceBoth(e, dest, members[..|members| - 1], [Last(members)]);
    if PlaceAll(e, dest, members[..|members| - 1]).1 {
      PlaceOne(PlaceAll(e, dest, members[..|members| - 1]).0, dest, Last(members));
    }
  }

  // The members so far and the next one are in each other's way.
  ghost predicate Blocks(dest: Path, members: seq<Member>, next: Member) {
    exists m :: m in members && Clash(dest, m, next)
  }

  predicate Clash(dest: Path, m: Member, next: Member) {
    || (m.kind == Regular && Target(dest, m) < Target(dest, next))
    || (next.kind == Regular && Target(dest, next) < Target(dest, m))
  }

  ghost predicate FreshAt(e: Entries, dest: Path) {
    && dest != [] && ".." !in dest
    && Untouched(e.Keys, dest)
    && (forall q :: q in e && q <= dest ==> e[q] == Directory)
  }

  lemma StepExtracted(e: Entries, now: Entries, dest: Path, members: seq<Member>, next: Member)
    requires FreshAt(e, dest) && Extracted(e, now, dest, members)
    requires next.kind != Other && dest <= Target(dest, next)
    requires forall m :: m in members ==>
      m.kind != Other && dest <= Target(dest, m) && Target(dest, m) != Target(dest, next)
    ensures Place(now, dest, next).1 <==> !Blocks(dest, members, next)
    ensures Place(now, dest, next).1 ==> Extracted(e, Place(now, dest, next).0, dest, members + [next])
  {
    hide Target, Resolve;
    var target := Target(dest, next);
    assert target != [];
    WayIsFree(e, now, dest, members, next);
    if Place(now, dest, next).1 {
      PlacedIsExtracted(e, now, dest, members, next);
    }
  }

  lemma WayIsFree(e: Entries, now: Entries, dest: Path, members: seq<Member>, next: Member)
    requires FreshAt(e, dest) && Extracted(e, now, dest, members)
    requires next.kind != Other && dest <= Target(dest, next)
    requires forall m :: m in members ==>
      m.kind != Other && dest <= Target(dest, m) && Target(dest, m) != Target(dest, next)
    ensures Place(now, dest, next).1 <==> !Blocks(dest, members, next)
  {
    hide Target;
    var target := Target(dest, next);
    var made := if next.kind == Folder then target else Parent(target);
    PrefixOfParent(made, target);
    if !CanMake(now, made) {
      var q :| q in now && q <= made && now[q] != Directory;
    } else {
      forall m | m in members && m.kind == Regular ensures !(Target(dest, m) < target) {
        assert Target(dest, m) in now && now[Target(dest, m)] != Directory;
        PrefixOfParent(Target(dest, m), target);
      }
    }
  }

  lemma PlacedIsExtracted(e: Entries, now: Entries, dest: Path, members: seq<Member>, next: Member)
    requires FreshAt(e, dest) && Extracted(e, now, dest, members)
    requires next.kind != Other && dest <= Target(dest, next)
    requires Place(now, dest, next).1
    ensures Extracted(e, Place(now, dest, next).0, dest, members + [next])
  {
    hide Target, Place, FreshAt, OnTheWay;
    var target, all := Target(dest, next), members + [next];
    var after := Place(now, dest, next).0;
    PlacedShape(now, dest, next);
    assert next in all && forall m :: m in all <==> m in members || m == next;
    forall q ensures q in after <==> q in e || exists m :: m in all && OnTheWay(q, dest, m) {
      OneMoreOnTheWay(q, dest, members, next);
    }
    assert forall m :: m in members && m.kind == Regular ==> Target(dest, m) in now;
  }

  lemma OneMoreOnTheWay(q: Path, dest: Path, members: seq<Member>, next: Member)
    ensures (exists m :: m in members + [next] && OnTheWay(q, dest, m)) <==>
      (exists m :: m in members && OnTheWay(q, dest, m)) || q <= Target(dest, next)
  {
    assert next in members + [next] && forall m :: m in members ==> m in members + [next];
    assert OnTheWay(q, dest, next) <==> q <= Target(dest, next);
  }

  // One successful placement, seen from outside.
  lemma PlacedShape(now: Entries, dest: Path, m: Member)
    requires Place(now, dest, m).1 && m.kind != Other
    ensures
      var target, after := Target(dest, m), Place(now, dest, m).0;
      && (forall q :: q in after <==> q in now || q <= target)
      && (forall q :: q in now ==> after[q] == now[q])
      && (forall q :: q in after && q !in now && after[q] != Directory ==>
            m.kind == Regular && q == target && after[q] == Document(m.content))
      && (m.kind == Regular ==> target in after && after[target] == Document(m.content))
  {
    hide Target;
    var target := Target(dest, m);
    if m.kind == Regular {
      var after := Place(now, dest, m).0;
      forall q ensures q in after <==> q in now || q <= target {
        PrefixOfParent(q, target);
      }
    }
  }

  lemma {:induction false} ExtractsExactlyUnless(e: Entries, dest: Path, members: seq<Member>)
    requires FreshAt(e, dest) && AllSafe(members)
    requires forall i, j :: 0 <= i < j < |members| ==> Parts(members[i].name) != Parts(members[j].name)
    ensures PlaceAll(e, dest, members).1 <==> forall j :: 0 <= j < |members| ==> !Blocks(dest, members[..j], members[j])
    ensures PlaceAll(e, dest, members).1 ==> Extracted(e, PlaceAll(e, dest, members).0, dest, members)
  {
    hide Place, Target, Blocks, Extracted, FreshAt, Safe, Parts;
    if members == [] {
      NothingExtracted(e, dest);
    } else {
      var init, last := members[..|members| - 1], Last(members);
      ExtractsExactlyUnless(e, dest, init);
      PlaceLast(e, dest, members);
      BlocksLast(dest, members);
      if PlaceAll(e, dest, init).1 {
        TargetsApart(dest, members, e);
        assert members == init + [last];
        StepExtracted(e, PlaceAll(e, dest, init).0, dest, init, last);
      }
    }
  }

  lemma BlocksLast(dest: Path, members: seq<Member>)
    requires members != []
    ensures
      var init := members[..|members| - 1];
      (forall j :: 0 <= j < |members| ==> !Blocks(dest, members[..j], members[j])) <==>
        (forall j :: 0 <= j < |init| ==> !Blocks(dest, init[..j], init[j])) && !Blocks(dest, init, Last(members))
  {
    hide Blocks;
    var init := members[..|members| - 1];
    assert forall j :: 0 <= j < |init| ==> init[..j] == members[..j] && init[j] == members[j];
    assert members[..|init|] == init;
  }

  lemma NothingExtracted(e: Entries, dest: Path)
    ensures Extracted(e, e, dest, [])
  {
  }

  lemma TargetsApart(dest: Path, members: seq<Member>, e: Entries)
    requires members != [] && FreshAt(e, dest) && AllSafe(members)
    requires forall i, j :: 0 <= i < j < |members| ==> Parts(members[i].name) != Parts(members[j].name)
    ensures dest <= Target(dest, Last(members)) && Last(members).kind != Other
    ensures forall m :: m in members[..|members| - 1] ==>
      m.kind != Other && dest <= Target(dest, m) && Target(dest, m) != Target(dest, Last(members))
  {
    hide Target, Parts;
    var last := Last(members);
    SafeTarget(dest, last);
    forall m | m in members[..|members| - 1]
      ensures m.kind != Other && dest <= Target(dest, m) && Target(dest, m) != Target(dest, last)
    {
      var i :| 0 <= i < |members| - 1 && members[i] == m;
      SafeTarget(dest, m);
      RootedTails(Parts(m.name), Parts(last.name), dest);
    }
  }

  // Below the common root, paths compare as their tails do.
  lemma RootedTails(p: Path, q: Path, dest: Path)
    requires p != [] && q != [] && p[0] == q[0]
    ensures dest + p[1..] == dest + q[1..] <==> p == q
    ensures dest + p[1..] < dest + q[1..] <==> p < q
  {
    assert p == [p[0]] + p[1..] && q == [q[0]] + q[1..];
    assert (dest + p[1..])[|dest|..] == p[1..] && (dest + q[1..])[|dest|..] == q[1..];
    if dest + p[1..] < dest + q[1..] {
      assert p[1..] == (dest + q[1..])[..|dest + p[1..]|][|dest|..] == q[1..][..|p| - 1];
      assert p == q[..|p|];
    }
    if p < q {
      assert p == q[..|p|] && p[1..] == q[1..][..|p| - 1];
      assert dest + p[1..] == (dest + q[1..])[..|dest + p[1..]|];
    }
  }

  lemma BlocksByName(dest: Path, members: seq<Member>, e: Entries)
    requires FreshAt(e, dest) && AllSafe(members)
    ensures FileAboveMember(members) <==> exists j :: 0 <= j < |members| && Blocks(dest, members[..j], members[j])
  {
    hide Target, Parts;
    forall i, j | 0 <= i < |members| && 0 <= j < |members|
      ensures Target(dest, members[i]) < Target(dest, members[j]) <==> Parts(members[i].name) < Parts(members[j].name)
    {
      SafeTarget(dest, members[i]);
      SafeTarget(dest, members[j]);
      RootedTails(Parts(members[i].name), Parts(members[j].name), dest);
    }
    if FileAboveMember(members) {
      var i, j :| 0 <= i < |members| && 0 <= j < |members|
        && members[i].kind == Regular && Parts(members[i].name) < Parts(members[j].name);
      assert i != j;
      if i < j {
        assert members[i] in members[..j] && Blocks(dest, members[..j], members[j]);
      } else {
        assert members[j] in members[..i] && Blocks(dest, members[..i], members[i]);
      }
    }
    if j :| 0 <= j < |members| && Blocks(dest, members[..j], members[j]) {
      var m :| m in members[..j] && Clash(dest, m, members[j]);
      var i :| 0 <= i < j && members[i] == m;
      assert FileAboveMember(members);
    }
  }

  /** An accepted archive can be extracted where nothing lies yet exactly when no file
      in it is named strictly above another member, whatever the order of the members;
      and then the disk holds each file with its content, the named folders and those
      leading to a member, and whatever it held before, and nothing else. */
  lemma ExtractionSucceedsExactlyWhenNoFileIsAFolder(e: Entries, dest: Path, members: seq<Member>)
    requires Refusal(members).None? && FreshAt(e, dest)
    ensures PlaceAll(e, dest, members).1 <==> !FileAboveMember(members)
    ensures PlaceAll(e, dest, members).1 ==> Extracted(e, PlaceAll(e, dest, members).0, dest, members)
  {
    hide Blocks, Extracted, FreshAt, PlaceAll, FileAboveMember;
    NoObjection(members, {});
    ExtractsExactlyUnless(e, dest, members);
    BlocksByName(dest, members, e);
  }

  /** The exception is real: a file named above another member passes the checks and
      then stops the extraction. */
  lemma AcceptedArchiveFails(e: Entries, dest: Path)
    requires FreshAt(e, dest)
    ensures
      var members := [Member(Join([ROOT, "a"]), Regular, ""), Member(Join([ROOT, "a", "b"]), Regular, "")];
      Refusal(members).None? && !PlaceAll(e, dest, members).1
  {
    hide Safe, Parts, Join, FreshAt, PlaceAll;
    var p, q := [ROOT, "a"], [ROOT, "a", "b"];
    var members := [Member(Join(p), Regular, ""), Member(Join(q), Regular, "")];
    NestedFilesAreAccepted(p, q);
    assert Refusal(members).None?;
    ExtractionSucceedsExactlyWhenNoFileIsAFolder(e, dest, members);
  }

  lemma NestedFilesAreAccepted(p: Path, q: Path)
    requires p != [] && p[0] == ROOT && AllProper(q) && AllProper(p) && p < q
    ensures
      var members := [Member(Join(p), Regular, ""), Member(Join(q), Regular, "")];
      Refusal(members).None? && FileAboveMember(members)
  {
    hide Safe, Parts, Join;
    var members := [Member(Join(p), Regular, ""), Member(Join(q), Regular, "")];
    ProperMemberIsSafe(p);
    ProperMemberIsSafe(q);
    assert Parts(members[0].name) == p < q == Parts(members[1].name);
    assert members[1..] == [members[1]] && [members[1]][1..] == [];
    assert Objection([members[1]], {} + {p}) == Objection([], {} + {p} + {q});
  }
}
