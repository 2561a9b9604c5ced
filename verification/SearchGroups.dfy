/** Search results grouped into films and series. */
module SearchGroups {
  import opened Prelude
  import opened Text
  import opened StableSort
  import opened TransferStream

  datatype Entry = Entry(name: string, path: string, groupId: string, groupName: string, size: int, isDir: bool)

  /** The rules written as regular expressions and Unicode tables: cleaning a folder title, recognizing a virtual
      search folder, the letters and digits of a title, a file name without its extension, the title inferred from
      a file name, what counts as media, and the quality label. */
  datatype Rules = Rules(
    cleanTitle: string -> string, isVirtual: string -> bool, matchKey: string -> string, stem: string -> string,
    inferTitle: string -> string, isMedia: string -> bool, quality: string -> string, unnamed: string)

  datatype Candidate = Candidate(id: string, title: string, key: string)

  datatype Group = Group(
    id: string, title: string, quality: string, videoCount: nat, totalSize: int, primary: Option<Entry>,
    files: seq<Entry>)

  function FirstNonEmpty(a: string, b: string): string {
    if TrimSpace(a) != "" then TrimSpace(a) else TrimSpace(b)
  }

  function TitleOf(u: Rules, item: Entry): string {
    u.cleanTitle(FirstNonEmpty(item.groupName, item.name))
  }

  // ----- folder candidates -----

  predicate HasKey(cs: seq<Candidate>, key: string) {
    exists i :: 0 <= i < |cs| && cs[i].key == key
  }

  predicate NewCandidate(u: Rules, item: Entry, cs: seq<Candidate>) {
    var key := u.matchKey(TitleOf(u, item));
    item.isDir && key != "" && !u.isVirtual(TitleOf(u, item)) && !HasKey(cs, key)
  }

  function CandidateFor(u: Rules, item: Entry): Candidate {
    var key, id := u.matchKey(TitleOf(u, item)), TrimSpace(item.groupId);
    Candidate(if id == "" then "folder:" + key else id, TitleOf(u, item), key)
  }

  /** The first real folder for every key, in the order of the results. */
  function Folders(u: Rules, items: seq<Entry>): seq<Candidate> {
    if items == [] then []
    else
      var n := |items| - 1;
      var front := Folders(u, items[..n]);
      if NewCandidate(u, items[n], front) then front + [CandidateFor(u, items[n])] else front
  }

  predicate LongerKey(a: Candidate, b: Candidate) {
    |a.key| > |b.key|
  }

  function Candidates(u: Rules, items: seq<Entry>): seq<Candidate> {
    Sort(Folders(u, items), LongerKey)
  }

  /** clientMediaFolderCandidates. */
  method ClientMediaFolderCandidates(u: Rules, items: seq<Entry>) returns (cs: seq<Candidate>)
    ensures cs == Candidates(u, items)
  {
    cs := [];
    var seen: set<string> := {};
    var i := 0;
    while i < |items|
      invariant 0 <= i <= |items|
      invariant cs == Folders(u, items[..i])
      invariant forall key :: key in seen <==> HasKey(cs, key)
    {
      assert items[..i + 1][..i] == items[..i];
      var item := items[i];
      i := i + 1;
      if !item.isDir {
        continue;
      }
      var title := u.cleanTitle(FirstNonEmpty(item.groupName, item.name));
      var key := u.matchKey(title);
      if key == "" || u.isVirtual(title) {
        continue;
      }
      if key in seen {
        continue;
      }
      seen := seen + {key};
      var id := TrimSpace(item.groupId);
      if id == "" {
        id := "folder:" + key;
      }
      ghost var before := cs;
      cs := cs + [Candidate(id, title, key)];
      AddedKey(before, Candidate(id, title, key));
    }
    assert items[..i] == items;
    cs := Sort(cs, LongerKey);
  }

  lemma AddedKey(cs: seq<Candidate>, c: Candidate)
    ensures forall key :: HasKey(cs + [c], key) <==> HasKey(cs, key) || key == c.key
  {
    forall key ensures HasKey(cs + [c], key) <==> HasKey(cs, key) || key == c.key {
      if HasKey(cs, key) {
        var i :| 0 <= i < |cs| && cs[i].key == key;
        assert (cs + [c])[i].key == key;
      }
      if key == c.key {
        assert (cs + [c])[|cs|].key == key;
      }
    }
  }

  ghost predicate KeysOk(cs: seq<Candidate>) {
    && (forall c <- cs :: c.key != "")
    && (forall i, j :: 0 <= i < j < |cs| ==> cs[i].key != cs[j].key)
  }

  lemma {:induction false} FolderKeys(u: Rules, items: seq<Entry>)
    ensures KeysOk(Folders(u, items))
  {
    if items != [] {
      FolderKeys(u, items[..|items| - 1]);
    }
  }

  lemma LongerIsWeakOrder()
    ensures WeakOrder(LongerKey)
  {
  }

  /** Candidate keys are distinct and not empty, and longer ones come first. */
  lemma CandidateKeys(u: Rules, items: seq<Entry>)
    ensures KeysOk(Candidates(u, items)) && Ordered(Candidates(u, items), LongerKey)
    ensures multiset(Candidates(u, items)) == multiset(Folders(u, items))
  {
    var folders, cs := Folders(u, items), Candidates(u, items);
    FolderKeys(u, items);
    LongerIsWeakOrder();
    SortIsStable(folders, LongerKey);
    hide Folders, Sort;
    DistinctAfterSort(folders, cs);
  }

  lemma DistinctAfterSort(a: seq<Candidate>, b: seq<Candidate>)
    requires multiset(a) == multiset(b) && KeysOk(a)
    ensures KeysOk(b)
  {
    forall c <- b ensures c.key != "" {
      assert c in multiset(a);
    }
    forall i, j | 0 <= i < j < |b| ensures b[i].key != b[j].key {
      if b[i].key == b[j].key {
        assert b[i] in multiset(a) && b[j] in multiset(a);
        OncePerKey(a, b[i]);
        assert b[i] == b[j];
        TwiceIn(b, i, j);
      }
    }
  }

  lemma {:induction false} OncePerKey(a: seq<Candidate>, c: Candidate)
    requires KeysOk(a) && c in a
    ensures multiset(a)[c] == 1
    ensures forall d <- a :: d.key == c.key ==> d == c
  {
    var n := |a| - 1;
    assert a == a[..n] + [a[n]];
    if c in a[..n] {
      OncePerKey(a[..n], c);
    } else {
      assert multiset(a[..n])[c] == 0;
    }
  }

  lemma TwiceIn(b: seq<Candidate>, i: nat, j: nat)
    requires i < j < |b| && b[i] == b[j]
    ensures multiset(b)[b[i]] >= 2
  {
    assert b == b[..j] + [b[j]] + b[j + 1..];
    assert b[i] in b[..j];
    assert b[i] in multiset(b[..j]);
  }

  // ----- resolving an item -----

  /** The first candidate whose key is a prefix. */
  function FirstPrefix(cs: seq<Candidate>, key: string): Option<Candidate> {
    if cs == [] then None else if cs[0].key <= key then Some(cs[0]) else FirstPrefix(cs[1..], key)
  }

  function ByKey(cs: seq<Candidate>): map<string, Candidate> {
    if cs == [] then map[] else ByKey(cs[..|cs| - 1])[cs[|cs| - 1].key := cs[|cs| - 1]]
  }

  /** resolveClientMediaFolder: the group an item belongs to, and its title. */
  function Resolve(u: Rules, item: Entry, cs: seq<Candidate>, byKey: map<string, Candidate>): (string, string) {
    var title := TitleOf(u, item);
    var key := u.matchKey(title);
    if item.isDir && key in byKey then (byKey[key].id, byKey[key].title)
    else
      var virtual := u.isVirtual(title);
      var prefix := if virtual then FirstPrefix(cs, u.matchKey(u.stem(item.name))) else None;
      if prefix.Some? then (prefix.value.id, prefix.value.title)
      else
        var title1 := if virtual then u.inferTitle(item.name) else title;
        var key1 := u.matchKey(title1);
        if key1 in byKey then (byKey[key1].id, byKey[key1].title)
        else
          var title2 := if title1 == "" then u.inferTitle(item.name) else title1;
          var key2 := u.matchKey(title2);
          var own := TrimSpace(item.groupId);
          if key2 == "" then (FirstNonEmpty(item.path, item.name), u.unnamed)
          else (if own == "" || u.isVirtual(item.groupName) then "inferred:" + key2 else own, title2)
  }

  lemma {:induction false} FirstPrefixIsFirst(cs: seq<Candidate>, key: string)
    ensures match FirstPrefix(cs, key)
            case None => forall c <- cs :: !(c.key <= key)
            case Some(c) =>
              && c.key <= key
              && exists i :: 0 <= i < |cs| && cs[i] == c && forall j :: 0 <= j < i ==> !(cs[j].key <= key)
  {
    if cs != [] && !(cs[0].key <= key) {
      FirstPrefixIsFirst(cs[1..], key);
      var r := FirstPrefix(cs, key);
      if r.Some? {
        var i :| 0 <= i < |cs[1..]| && cs[1..][i] == r.value && forall j :: 0 <= j < i ==> !(cs[1..][j].key <= key);
        forall j | 0 <= j < i + 1 ensures !(cs[j].key <= key) {
          assert j > 0 ==> cs[j] == cs[1..][j - 1];
        }
        assert cs[i + 1] == r.value;
      }
    }
  }

  /** A file in a virtual search folder goes to the one folder with the longest key its own key starts with; if
      there is none, no folder's key is a prefix. */
  lemma VirtualFileGoesToLongest(u: Rules, items: seq<Entry>, item: Entry)
    requires !item.isDir && u.isVirtual(TitleOf(u, item))
    ensures var cs, key := Candidates(u, items), u.matchKey(u.stem(item.name));
      if exists c :: c in cs && c.key <= key then
        exists c :: c in cs && c.key <= key && Resolve(u, item, cs, ByKey(cs)) == (c.id, c.title)
          && forall d <- cs :: d.key <= key && d != c ==> |d.key| < |c.key|
      else FirstPrefix(cs, key).None?
  {
    var cs, key := Candidates(u, items), u.matchKey(u.stem(item.name));
    CandidateKeys(u, items);
    FirstPrefixIsFirst(cs, key);
    hide Candidates, TitleOf, FirstPrefix, ByKey;
    var r := FirstPrefix(cs, key);
    if r.Some? {
      LongestOfFirst(cs, key, r.value);
      assert r.value in cs;
    }
  }

  lemma SamePrefix(a: string, b: string, s: string)
    requires a <= s && b <= s
    ensures |a| == |b| ==> a == b
  {
  }

  lemma LongestOfFirst(cs: seq<Candidate>, key: string, c: Candidate)
    requires KeysOk(cs) && Ordered(cs, LongerKey) && c.key <= key
    requires exists i :: 0 <= i < |cs| && cs[i] == c && forall j :: 0 <= j < i ==> !(cs[j].key <= key)
    ensures forall d <- cs :: d.key <= key && d != c ==> |d.key| < |c.key|
  {
    var i :| 0 <= i < |cs| && cs[i] == c && forall j :: 0 <= j < i ==> !(cs[j].key <= key);
    forall j | 0 <= j < |cs| && cs[j].key <= key && cs[j] != c ensures |cs[j].key| < |c.key| {
      assert j > i && !LongerKey(cs[j], cs[i]);
      SamePrefix(cs[j].key, c.key, key);
    }
  }

  // ----- grouping, declaratively -----

  function IdOf(u: Rules, item: Entry, cs: seq<Candidate>): string {
    Resolve(u, item, cs, ByKey(cs)).0
  }

  predicate IsMediaFile(u: Rules, item: Entry) {
    !item.isDir && u.isMedia(item.name)
  }

  /** The group ids in the order in which they are first met. */
  function GroupIds(u: Rules, items: seq<Entry>, cs: seq<Candidate>): seq<string> {
    if items == [] then []
    else
      var front := GroupIds(u, items[..|items| - 1], cs);
      var id := IdOf(u, items[|items| - 1], cs);
      if id in front then front else front + [id]
  }

  function InGroup(u: Rules, cs: seq<Candidate>, id: string): Entry -> bool {
    (item: Entry) => IsMediaFile(u, item) && IdOf(u, item, cs) == id
  }

  /** The media files of a group, in the order of the results. */
  function FilesOf(u: Rules, items: seq<Entry>, cs: seq<Candidate>, id: string): seq<Entry> {
    Filter(items, InGroup(u, cs, id))
  }

  /** The title that came with the first item of a group. */
  function GroupTitle(u: Rules, items: seq<Entry>, cs: seq<Candidate>, id: string): string {
    if items == [] then ""
    else if IdOf(u, items[0], cs) == id then Resolve(u, items[0], cs, ByKey(cs)).1
    else GroupTitle(u, items[1..], cs, id)
  }

  function TotalSize(files: seq<Entry>): int {
    if files == [] then 0 else TotalSize(files[..|files| - 1]) + files[|files| - 1].size
  }

  /** The first of the largest files. */
  function Largest(files: seq<Entry>): Option<Entry> {
    if files == [] then None
    else
      var front, last := Largest(files[..|files| - 1]), files[|files| - 1];
      if front.None? || last.size > front.value.size then Some(last) else front
  }

  /** The first quality label that the name of a file and the title give. */
  function Quality(u: Rules, files: seq<Entry>, title: string): string {
    if files == [] then ""
    else
      var front := Quality(u, files[..|files| - 1], title);
      if front != "" then front else u.quality(files[|files| - 1].name + " " + title)
  }

  function GroupOf(u: Rules, items: seq<Entry>, cs: seq<Candidate>, id: string): Group {
    var files, title := FilesOf(u, items, cs, id), GroupTitle(u, items, cs, id);
    Group(id, title, Quality(u, files, title), |files|, Wrap64(TotalSize(files)), Largest(files), files)
  }

  predicate ByName(a: Entry, b: Entry) {
    Before(a.name, b.name)
  }

  function WithSortedFiles(g: Group): Group {
    g.(files := Sort(g.files, ByName))
  }

  predicate Visible(g: Group) {
    g.videoCount > 0
  }

  /** All groups, those without media files included. */
  function AllGroups(u: Rules, items: seq<Entry>): seq<Group> {
    var cs := Candidates(u, items);
    var ids := GroupIds(u, items, cs);
    seq(|ids|, i requires 0 <= i < |ids| => WithSortedFiles(GroupOf(u, items, cs, ids[i])))
  }

  function SearchResult(u: Rules, items: seq<Entry>): seq<Group> {
    Filter(AllGroups(u, items), Visible)
  }

  // ----- how one more item changes the groups -----

  lemma {:induction false} IdsAreDistinct(u: Rules, items: seq<Entry>, cs: seq<Candidate>)
    ensures NoDuplicates(GroupIds(u, items, cs))
    ensures forall id :: id in GroupIds(u, items, cs) <==> exists i :: 0 <= i < |items| && IdOf(u, items[i], cs) == id
  {
    hide IdOf;
    if items != [] {
      var n := |items| - 1;
      IdsAreDistinct(u, items[..n], cs);
      forall id | id in GroupIds(u, items, cs) ensures exists i :: 0 <= i < |items| && IdOf(u, items[i], cs) == id {
        if id == IdOf(u, items[n], cs) {
        } else {
          var i :| 0 <= i < n && IdOf(u, items[..n][i], cs) == id;
          assert items[i] == items[..n][i];
        }
      }
      forall i | 0 <= i < |items| ensures IdOf(u, items[i], cs) in GroupIds(u, items, cs) {
        if i < n {
          assert items[..n][i] == items[i];
        }
      }
    }
  }

  lemma {:induction false} TitleAppend(u: Rules, items: seq<Entry>, x: Entry, cs: seq<Candidate>, id: string)
    ensures (exists i :: 0 <= i < |items| && IdOf(u, items[i], cs) == id)
            ==> GroupTitle(u, items + [x], cs, id) == GroupTitle(u, items, cs, id)
    ensures !(exists i :: 0 <= i < |items| && IdOf(u, items[i], cs) == id) && IdOf(u, x, cs) == id
            ==> GroupTitle(u, items + [x], cs, id) == Resolve(u, x, cs, ByKey(cs)).1
  {
    hide IdOf, Resolve, ByKey;
    if items != [] {
      assert (items + [x])[1..] == items[1..] + [x];
      TitleAppend(u, items[1..], x, cs, id);
      if IdOf(u, items[0], cs) != id && exists i :: 0 <= i < |items| && IdOf(u, items[i], cs) == id {
        var i :| 0 <= i < |items| && IdOf(u, items[i], cs) == id;
        assert items[1..][i - 1] == items[i];
      }
    } else {
      assert (items + [x])[0] == x;
    }
  }

  /** A media file joins its group. */
  lemma GroupGrows(u: Rules, items: seq<Entry>, x: Entry, cs: seq<Candidate>, id: string)
    requires exists i :: 0 <= i < |items| && IdOf(u, items[i], cs) == id
    ensures var g, g' := GroupOf(u, items, cs, id), GroupOf(u, items + [x], cs, id);
      if IsMediaFile(u, x) && IdOf(u, x, cs) == id then g' == Joined(u, g, x) else g' == g
  {
    hide IdOf, IsMediaFile, Wrap64, FilesOf, GroupTitle, Quality, Largest, TotalSize;
    TitleAppend(u, items, x, cs, id);
    FilesOfAppend(u, items, x, cs, id);
    if IsMediaFile(u, x) && IdOf(u, x, cs) == id {
      JoinedOf(u, GroupTitle(u, items, cs, id), FilesOf(u, items, cs, id), x);
    } else {
      assert FilesOf(u, items + [x], cs, id) == FilesOf(u, items, cs, id);
    }
  }

  /** A group with one more file. */
  function Joined(u: Rules, g: Group, x: Entry): Group {
    g.(files := g.files + [x], videoCount := g.videoCount + 1, totalSize := Wrap64(g.totalSize + x.size),
       primary := if g.primary.None? || x.size > g.primary.value.size then Some(x) else g.primary,
       quality := if g.quality == "" then u.quality(x.name + " " + g.title) else g.quality)
  }

  lemma JoinedOf(u: Rules, title: string, files: seq<Entry>, x: Entry)
    ensures var more := files + [x];
      && Largest(more)
         == (if Largest(files).None? || x.size > Largest(files).value.size then Some(x) else Largest(files))
      && Quality(u, more, title)
         == (if Quality(u, files, title) == "" then u.quality(x.name + " " + title) else Quality(u, files, title))
      && Wrap64(TotalSize(more)) == Wrap64(Wrap64(TotalSize(files)) + x.size)
  {
    assert (files + [x])[..|files|] == files;
    WrapTwice(TotalSize(files), x.size);
  }

  lemma WrapTwice(a: int, b: int)
    ensures Wrap64(Wrap64(a) + b) == Wrap64(a + b)
  {
    var k := (a + TWO_63) / TWO_64;
    assert Wrap64(a) == a - k * TWO_64;
    assert Wrap64(a) + b + TWO_63 == a + b + TWO_63 - k * TWO_64;
    WrapMultiple(a + b + TWO_63, k);
  }

  lemma WrapMultiple(x: int, k: int)
    ensures (x - k * TWO_64) % TWO_64 == x % TWO_64
  {
  }

  /** The first item of a group. */
  lemma GroupStarts(u: Rules, items: seq<Entry>, x: Entry, cs: seq<Candidate>)
    requires !exists i :: 0 <= i < |items| && IdOf(u, items[i], cs) == IdOf(u, x, cs)
    ensures var id := IdOf(u, x, cs);
      var empty := Group(id, Resolve(u, x, cs, ByKey(cs)).1, "", 0, 0, None, []);
      GroupOf(u, items + [x], cs, id) == if IsMediaFile(u, x) then Joined(u, empty, x) else empty
  {
    var id := IdOf(u, x, cs);
    hide IdOf, Resolve, ByKey;
    TitleAppend(u, items, x, cs, id);
    NoFiles(u, items, cs, id);
    FilesOfAppend(u, items, x, cs, id);
    hide FilesOf, GroupTitle;
    FirstFile(u, id, GroupTitle(u, items + [x], cs, id), x);
    assert FilesOf(u, items + [x], cs, id) == if IsMediaFile(u, x) then [x] else [];
  }

  /** A group of one file. */
  lemma FirstFile(u: Rules, id: string, title: string, x: Entry)
    ensures Group(id, title, Quality(u, [x], title), 1, Wrap64(TotalSize([x])), Largest([x]), [x])
            == Joined(u, Group(id, title, "", 0, 0, None, []), x)
    ensures Group(id, title, Quality(u, [], title), 0, Wrap64(TotalSize([])), Largest([]), [])
            == Group(id, title, "", 0, 0, None, [])
  {
    hide Wrap64;
    JoinedOf(u, title, [], x);
    assert [] + [x] == [x];
  }

  lemma FilesOfAppend(u: Rules, items: seq<Entry>, x: Entry, cs: seq<Candidate>, id: string)
    ensures FilesOf(u, items + [x], cs, id)
            == FilesOf(u, items, cs, id) + if IsMediaFile(u, x) && IdOf(u, x, cs) == id then [x] else []
  {
    hide IdOf;
    FilterAppend(items, x, InGroup(u, cs, id));
  }

  lemma {:induction false} NoFiles(u: Rules, items: seq<Entry>, cs: seq<Candidate>, id: string)
    requires !exists i :: 0 <= i < |items| && IdOf(u, items[i], cs) == id
    ensures FilesOf(u, items, cs, id) == []
  {
    hide IdOf;
    if items != [] {
      var n := |items| - 1;
      forall i | 0 <= i < n ensures IdOf(u, items[..n][i], cs) != id {
        assert items[..n][i] == items[i];
      }
      NoFiles(u, items[..n], cs, id);
    }
  }

  // ----- the loops -----

  /** The groups of the first `i` items, and where each id is found. */
  ghost predicate Collected(u: Rules, items: seq<Entry>, cs: seq<Candidate>, groups: seq<Group>, indexes: map<string,
                            nat>) {
    var ids := GroupIds(u, items, cs);
    && |groups| == |ids|
    && (forall j :: 0 <= j < |ids| ==> groups[j] == GroupOf(u, items, cs, ids[j]))
    && (forall id :: id in indexes <==> id in ids)
    && (forall j :: 0 <= j < |ids| ==> indexes[ids[j]] == j)
  }

  /** One round of the first loop: the item's group is found or started, and a media file joins it. */
  method AddItem(u: Rules, ghost items: seq<Entry>, x: Entry, cs: seq<Candidate>, byKey: map<string, Candidate>,
                 groups: seq<Group>, indexes: map<string, nat>)
    returns (groups': seq<Group>, indexes': map<string, nat>)
    requires byKey == ByKey(cs) && Collected(u, items, cs, groups, indexes)
    ensures Collected(u, items + [x], cs, groups', indexes')
  {
    hide GroupOf, Resolve, ByKey, Wrap64;
    groups', indexes' := groups, indexes;
    var (id, title) := Resolve(u, x, cs, byKey);
    ghost var ids := GroupIds(u, items, cs);
    assert GroupIds(u, items + [x], cs) == if id in ids then ids else ids + [id] by {
      assert (items + [x])[..|items|] == items;
    }
    IdsAreDistinct(u, items, cs);
    OthersKept(u, items, x, cs);
    if id !in indexes {
      GroupStarts(u, items, x, cs);
      indexes' := indexes'[id := |groups|];
      groups' := groups' + [Group(id, title, "", 0, 0, None, [])];
    } else {
      GroupGrows(u, items, x, cs, id);
    }
    hide IdOf, Joined;
    if !x.isDir && u.isMedia(x.name) {
      var index := indexes'[id];
      var group := JoinFile(u, groups'[index], x);
      groups' := groups'[index := group];
    }
  }

  /** A media file is added to its group, field by field. */
  method JoinFile(u: Rules, g: Group, x: Entry) returns (group: Group)
    ensures group == Joined(u, g, x)
  {
    group := g.(files := g.files + [x]);
    group := group.(videoCount := group.videoCount + 1);
    group := group.(totalSize := Wrap64(group.totalSize + x.size));
    if group.primary.None? || x.size > group.primary.value.size {
      group := group.(primary := Some(x));
    }
    if group.quality == "" {
      group := group.(quality := u.quality(x.name + " " + group.title));
    }
  }

  /** The groups of other items do not change. */
  lemma OthersKept(u: Rules, items: seq<Entry>, x: Entry, cs: seq<Candidate>)
    ensures forall id :: id in GroupIds(u, items, cs) && id != IdOf(u, x, cs) ==>
              GroupOf(u, items + [x], cs, id) == GroupOf(u, items, cs, id)
  {
    hide GroupOf, IdOf;
    IdsAreDistinct(u, items, cs);
    forall id | id in GroupIds(u, items, cs) && id != IdOf(u, x, cs)
      ensures GroupOf(u, items + [x], cs, id) == GroupOf(u, items, cs, id)
    {
      GroupGrows(u, items, x, cs, id);
    }
  }

  /** `visible := groups[:0]` and the appends: the groups with files move to the front of the same array. */
  method Compact(a: array<Group>) returns (n: nat)
    modifies a
    ensures n <= a.Length && a[..n] == Filter(old(a[..]), Visible)
  {
    hide Filter;
    n := 0;
    var k := 0;
    ghost var before := a[..];
    ghost var kept: seq<Group> := [];
    assert before[..0] == [] && Filter(before[..0], Visible) == [] by { FilterOfNothing(Visible); }
    while k < a.Length
      invariant 0 <= n <= k <= a.Length
      invariant a[..n] == kept == Filter(before[..k], Visible)
      invariant forall j :: k <= j < a.Length ==> a[j] == before[j]
    {
      FilterAppend(before[..k], before[k], Visible);
      assert before[..k] + [before[k]] == before[..k + 1];
      if Visible(a[k]) {
        a[n] := a[k];
        kept := kept + [before[k]];
        n := n + 1;
        assert a[..n] == kept;
      }
      k := k + 1;
    }
    assert before[..k] == before;
  }

  lemma FilterOfNothing<T>(keep: T -> bool)
    ensures Filter([], keep) == []
  {
  }

  /** The loop that sorts the files of every group. */
  method SortFiles(a: array<Group>)
    modifies a
    ensures a[..] == seq(a.Length, i requires 0 <= i < a.Length => WithSortedFiles(old(a[..])[i]))
  {
    var i := 0;
    ghost var before := a[..];
    while i < a.Length
      invariant 0 <= i <= a.Length
      invariant forall k :: 0 <= k < a.Length ==> a[k] == if k < i then WithSortedFiles(before[k]) else before[k]
    {
      a[i] := a[i].(files := Sort(a[i].files, ByName));
      i := i + 1;
    }
  }

  /** buildClientSearchGroups. */
  method BuildClientSearchGroups(u: Rules, results: seq<Entry>) returns (visible: seq<Group>)
    ensures visible == SearchResult(u, results)
  {
    hide GroupOf, Candidates, Resolve, WithSortedFiles;
    var cs := ClientMediaFolderCandidates(u, results);
    var byKey := ByKey(cs);
    var groups, indexes := [], map[];
    var i := 0;
    while i < |results|
      invariant 0 <= i <= |results|
      invariant Collected(u, results[..i], cs, groups, indexes)
    {
      groups, indexes := AddItem(u, results[..i], results[i], cs, byKey, groups, indexes);
      assert results[..i] + [results[i]] == results[..i + 1];
      i := i + 1;
    }
    assert results[..i] == results;
    var a := new Group[|groups|](k requires 0 <= k < |groups| => groups[k]);
    assert a[..] == groups;
    SortFiles(a);
    assert a[..] == AllGroups(u, results);
    var n := Compact(a);
    visible := a[..n];
  }

  // ----- what the groups guarantee -----

  function MediaOf(u: Rules, items: seq<Entry>): seq<Entry> {
    Filter(items, MediaFiles(u))
  }

  function MediaFiles(u: Rules): Entry -> bool {
    (item: Entry) => IsMediaFile(u, item)
  }

  /** All files of some groups. */
  function Contents(groups: seq<Group>): multiset<Entry> {
    if groups == [] then multiset{}
    else Contents(groups[..|groups| - 1]) + multiset(groups[|groups| - 1].files)
  }

  function FilesUnder(u: Rules, items: seq<Entry>, cs: seq<Candidate>, ids: seq<string>): multiset<Entry> {
    if ids == [] then multiset{}
    else FilesUnder(u, items, cs, ids[..|ids| - 1]) + multiset(FilesOf(u, items, cs, ids[|ids| - 1]))
  }

  /** One more item adds itself to the files of its group, and to no other. */
  lemma {:induction false} FilesGrow(u: Rules, items: seq<Entry>, x: Entry, cs: seq<Candidate>, ids: seq<string>)
    requires NoDuplicates(ids)
    ensures FilesUnder(u, items + [x], cs, ids)
            == FilesUnder(u, items, cs, ids)
               + if IsMediaFile(u, x) && IdOf(u, x, cs) in ids then multiset{x} else multiset{}
  {
    hide IdOf, FilesOf, IsMediaFile;
    if ids != [] {
      var n := |ids| - 1;
      FilesGrow(u, items, x, cs, ids[..n]);
      FilesOfAppend(u, items, x, cs, ids[n]);
      assert ids == ids[..n] + [ids[n]];
      assert ids[n] !in ids[..n];
    }
  }

  lemma {:induction false} FilesAreMedia(u: Rules, items: seq<Entry>, cs: seq<Candidate>, ids: seq<string>)
    requires NoDuplicates(ids) && forall i :: 0 <= i < |items| ==> IdOf(u, items[i], cs) in ids
    ensures FilesUnder(u, items, cs, ids) == multiset(MediaOf(u, items))
  {
    hide IdOf, IsMediaFile, FilesUnder, MediaOf;
    if items == [] {
      NothingUnder(u, cs, ids);
      NoMedia(u);
    } else {
      var front, last := items[..|items| - 1], items[|items| - 1];
      assert items == front + [last];
      assert forall i :: 0 <= i < |front| ==> front[i] == items[i];
      FilesAreMedia(u, front, cs, ids);
      FilesGrow(u, front, last, cs, ids);
      MediaAppend(u, front, last);
    }
  }

  lemma NoMedia(u: Rules)
    ensures MediaOf(u, []) == []
  {
  }

  lemma MediaAppend(u: Rules, items: seq<Entry>, x: Entry)
    ensures MediaOf(u, items + [x]) == MediaOf(u, items) + if IsMediaFile(u, x) then [x] else []
  {
    FilterAppend(items, x, MediaFiles(u));
  }

  lemma {:induction false} NothingUnder(u: Rules, cs: seq<Candidate>, ids: seq<string>)
    ensures FilesUnder(u, [], cs, ids) == multiset{}
  {
    if ids != [] {
      NothingUnder(u, cs, ids[..|ids| - 1]);
    }
  }

  lemma ContentsAppend(groups: seq<Group>, g: Group)
    ensures Contents(groups + [g]) == Contents(groups) + multiset(g.files)
  {
    assert (groups + [g])[..|groups|] == groups;
  }

  /** Leaving out the groups without files loses nothing. */
  lemma {:induction false} VisibleContents(groups: seq<Group>)
    requires forall i :: 0 <= i < |groups| ==> groups[i].videoCount == |groups[i].files|
    ensures Contents(Filter(groups, Visible)) == Contents(groups)
  {
    if groups != [] {
      var front, last := groups[..|groups| - 1], groups[|groups| - 1];
      assert groups == front + [last];
      VisibleContents(front);
      FilterAppend(front, last, Visible);
      ContentsAppend(front, last);
      ContentsAppend(Filter(front, Visible), last);
      hide Contents, Filter;
      assert !Visible(last) ==> last.files == [];
      if Visible(last) {
        assert Filter(groups, Visible) == Filter(front, Visible) + [last];
      } else {
        assert Filter(groups, Visible) == Filter(front, Visible) + [] == Filter(front, Visible);
      }
    }
  }

  lemma ByNameIsWeakOrder()
    ensures WeakOrder(ByName)
  {
    forall a: Entry, b: Entry | ByName(a, b) ensures !ByName(b, a) {
      BeforeAsymmetric(a.name, b.name);
    }
    forall a: Entry, b: Entry, c: Entry | !ByName(b, a) && !ByName(c, b) ensures !ByName(c, a) {
      NotBeforeTransitive(a.name, b.name, c.name);
    }
  }

  lemma {:induction false} ContentsOfIds(u: Rules, items: seq<Entry>, cs: seq<Candidate>, ids: seq<string>,
                                         groups: seq<Group>)
    requires |groups| == |ids|
    requires forall i :: 0 <= i < |ids| ==> groups[i] == WithSortedFiles(GroupOf(u, items, cs, ids[i]))
    ensures Contents(groups) == FilesUnder(u, items, cs, ids)
  {
    if ids != [] {
      var n := |ids| - 1;
      ContentsOfIds(u, items, cs, ids[..n], groups[..n]);
      ByNameIsWeakOrder();
      SortIsStable(FilesOf(u, items, cs, ids[n]), ByName);
    }
  }

  /** The visible groups hold exactly the media files of the results, each as often as it was there. */
  lemma MediaIsConserved(u: Rules, items: seq<Entry>)
    ensures Contents(SearchResult(u, items)) == multiset(MediaOf(u, items))
  {
    hide IdOf, Candidates, FilesUnder;
    var cs := Candidates(u, items);
    var ids := GroupIds(u, items, cs);
    var groups := AllGroups(u, items);
    IdsAreDistinct(u, items, cs);
    FilesAreMedia(u, items, cs, ids);
    ContentsOfIds(u, items, cs, ids, groups);
    forall i | 0 <= i < |groups| ensures groups[i].videoCount == |groups[i].files| {
      SortedLength(FilesOf(u, items, cs, ids[i]));
    }
    VisibleContents(groups);
  }

  lemma SortedLength(files: seq<Entry>)
    ensures |Sort(files, ByName)| == |files|
  {
    ByNameIsWeakOrder();
    SortIsStable(files, ByName);
    assert |multiset(Sort(files, ByName))| == |multiset(files)|;
  }

  // ----- each group -----

  lemma {:induction false} InsertTotal(s: seq<Entry>, x: Entry)
    ensures TotalSize(Insert(s, x, ByName)) == TotalSize(s) + x.size
  {
    if s != [] {
      var n := |s| - 1;
      InsertTotal(s[..n], x);
      var front := Insert(s[..n], x, ByName);
      assert (front + [s[n]])[..|front|] == front;
      assert (s + [x])[..|s|] == s;
    }
  }

  lemma {:induction false} SortTotal(s: seq<Entry>)
    ensures TotalSize(Sort(s, ByName)) == TotalSize(s)
  {
    if s != [] {
      SortTotal(s[..|s| - 1]);
      InsertTotal(Sort(s[..|s| - 1], ByName), s[|s| - 1]);
    }
  }

  /** The first of the largest files. */
  ghost predicate FirstMaximum(files: seq<Entry>, i: nat) {
    && i < |files|
    && (forall j :: 0 <= j < |files| ==> files[j].size <= files[i].size)
    && (forall j :: 0 <= j < i ==> files[j].size < files[i].size)
  }

  lemma {:induction false} LargestIsFirstMaximum(files: seq<Entry>)
    ensures Largest(files).None? <==> files == []
    ensures files != [] ==> exists i: nat :: FirstMaximum(files, i) && Largest(files) == Some(files[i])
  {
    if |files| == 1 {
      assert Largest(files[..0]).None?;
      assert FirstMaximum(files, 0);
    } else if files != [] {
      var n := |files| - 1;
      LargestIsFirstMaximum(files[..n]);
      var i: nat :| FirstMaximum(files[..n], i) && Largest(files[..n]) == Some(files[..n][i]);
      StillMaximum(files, i);
      hide FirstMaximum;
      if files[n].size > files[i].size {
        assert Largest(files) == Some(files[n]);
      } else {
        assert Largest(files) == Some(files[i]);
      }
    }
  }

  lemma StillMaximum(files: seq<Entry>, i: nat)
    requires files != [] && FirstMaximum(files[..|files| - 1], i)
    ensures i < |files| - 1
    ensures FirstMaximum(files, if files[|files| - 1].size > files[i].size then |files| - 1 else i)
  {
    assert forall j :: 0 <= j < |files| - 1 ==> files[..|files| - 1][j] == files[j];
  }

  function Named(name: string): Entry -> bool {
    (item: Entry) => item.name == name
  }

  /** A visible group is the group of its id: its files are the group's media files, sorted by name with equal
      names in the order of the results; count, total and primary are those of its files. */
  ghost predicate SoundGroup(u: Rules, items: seq<Entry>, g: Group) {
    var cs := Candidates(u, items);
    var files := FilesOf(u, items, cs, g.id);
    && files != [] && multiset(g.files) == multiset(files) && Ordered(g.files, ByName)
    && (forall name: string :: Filter(g.files, Named(name)) == Filter(files, Named(name)))
    && g.videoCount == |g.files| && g.totalSize == Wrap64(TotalSize(g.files))
    && g.title == GroupTitle(u, items, cs, g.id)
    && exists i: nat :: FirstMaximum(files, i) && g.primary == Some(files[i])
  }

  lemma SortedFilesAreSound(files: seq<Entry>)
    ensures multiset(Sort(files, ByName)) == multiset(files) && Ordered(Sort(files, ByName), ByName)
    ensures forall name: string :: Filter(Sort(files, ByName), Named(name)) == Filter(files, Named(name))
    ensures |Sort(files, ByName)| == |files| && TotalSize(Sort(files, ByName)) == TotalSize(files)
  {
    ByNameIsWeakOrder();
    SortIsStable(files, ByName);
    SortedLength(files);
    SortTotal(files);
    forall name: string ensures Filter(Sort(files, ByName), Named(name)) == Filter(files, Named(name)) {
      assert Alike(Named(name), ByName) by { SameNames(name); }
    }
  }

  lemma SameNames(name: string)
    ensures Alike(Named(name), ByName)
  {
    forall a: Entry, b: Entry | Named(name)(a) && Named(name)(b) ensures !ByName(a, b) {
      BeforeAsymmetric(a.name, b.name);
    }
  }

  lemma GroupIsSound(u: Rules, items: seq<Entry>, id: string)
    requires Visible(GroupOf(u, items, Candidates(u, items), id))
    ensures SoundGroup(u, items, WithSortedFiles(GroupOf(u, items, Candidates(u, items), id)))
  {
    var files := FilesOf(u, items, Candidates(u, items), id);
    SortedFilesAreSound(files);
    LargestIsFirstMaximum(files);
    hide FilesOf, Sort, TotalSize, FirstMaximum, Candidates, Filter;
  }

  lemma {:induction false} FilterKeeps<T>(s: seq<T>, keep: T -> bool)
    ensures forall x <- Filter(s, keep) :: x in s && keep(x)
  {
    if s != [] {
      FilterKeeps(s[..|s| - 1], keep);
    }
  }

  /** Every visible group is sound. */
  lemma GroupsAreSound(u: Rules, items: seq<Entry>, g: Group)
    requires g in SearchResult(u, items)
    ensures SoundGroup(u, items, g)
  {
    hide SoundGroup, Filter, GroupOf, Candidates, GroupIds;
    FilterKeeps(AllGroups(u, items), Visible);
    var cs := Candidates(u, items);
    var i :| 0 <= i < |AllGroups(u, items)| && AllGroups(u, items)[i] == g;
    GroupIsSound(u, items, GroupIds(u, items, cs)[i]);
  }

  /** The total of a visible group is the sum of its file sizes if and only if the sum fits in an int64. */
  lemma TotalIsTrueIff(u: Rules, items: seq<Entry>, g: Group)
    requires g in SearchResult(u, items)
    ensures g.totalSize == TotalSize(g.files) <==> -TWO_63 <= TotalSize(g.files) < TWO_63
  {
    hide SearchResult, TotalSize, FilesOf, Candidates;
    GroupsAreSound(u, items, g);
  }

  /** Rules under which every file is media and titles are taken as they are. */
  function PlainRules(): Rules {
    Rules(s => s, s => false, s => s, s => s, s => s, s => true, s => "", "")
  }

  const LARGE := Entry("a", "pa", "G", "G", MAX_INT64, false)
  const SMALL := Entry("b", "pb", "G", "G", 1, false)

  lemma SameGroup(item: Entry)
    requires item == LARGE || item == SMALL
    ensures IdOf(PlainRules(), item, []) == "G" && IsMediaFile(PlainRules(), item)
  {
    assert TrimSpace("G") == "G";
  }

  lemma TwoFiles()
    ensures var u, items := PlainRules(), [LARGE, SMALL];
      Candidates(u, items) == [] && FilesOf(u, items, [], "G") == items && IdOf(u, items[0], []) == "G"
  {
    var u, items := PlainRules(), [LARGE, SMALL];
    NoFolders(u, items);
    SameGroup(LARGE);
    SameGroup(SMALL);
    hide IdOf, IsMediaFile, Candidates, FilesOf;
    assert items == [LARGE] + [SMALL] && [LARGE] == [] + [LARGE];
    FilesOfAppend(u, [LARGE], SMALL, [], "G");
    FilesOfAppend(u, [], LARGE, [], "G");
    NoFiles(u, [], [], "G");
  }

  /** A group with files is visible. */
  lemma GroupIsVisible(u: Rules, items: seq<Entry>, i: nat)
    requires i < |items|
    requires FilesOf(u, items, Candidates(u, items), IdOf(u, items[i], Candidates(u, items))) != []
    ensures var cs := Candidates(u, items);
      WithSortedFiles(GroupOf(u, items, cs, IdOf(u, items[i], cs))) in SearchResult(u, items)
  {
    var cs := Candidates(u, items);
    hide Candidates, IdOf, FilesOf, Sort, Filter, GroupIds, Quality, Largest, GroupTitle, TotalSize;
    IdsAreDistinct(u, items, cs);
    var id := IdOf(u, items[i], cs);
    assert id in GroupIds(u, items, cs);
    var k :| 0 <= k < |GroupIds(u, items, cs)| && GroupIds(u, items, cs)[k] == id;
    FilterHas(AllGroups(u, items), Visible, k);
  }

  /** Two files whose group reports a negative total. */
  lemma TotalCanWrap() returns (g: Group)
    ensures g in SearchResult(PlainRules(), [LARGE, SMALL])
    ensures TotalSize(g.files) == MAX_INT64 + 1 && g.totalSize == -TWO_63
  {
    var u, items := PlainRules(), [LARGE, SMALL];
    TwoFiles();
    hide IdOf, Candidates, FilesOf, SearchResult;
    GroupIsVisible(u, items, 0);
    g := WithSortedFiles(GroupOf(u, items, [], "G"));
    SortTotal(items);
    assert [LARGE][..0] == [] && TotalSize([LARGE]) == TotalSize([]) + MAX_INT64;
    assert items[..1] == [LARGE] && TotalSize(items) == TotalSize([LARGE]) + 1;
  }

  lemma NoFolders(u: Rules, items: seq<Entry>)
    requires forall i :: 0 <= i < |items| ==> !items[i].isDir
    ensures Candidates(u, items) == []
  {
    if items != [] {
      NoFolders(u, items[..|items| - 1]);
    }
  }

  lemma {:induction false} FilterHas<T>(s: seq<T>, keep: T -> bool, i: nat)
    requires i < |s| && keep(s[i])
    ensures s[i] in Filter(s, keep)
  {
    if i < |s| - 1 {
      FilterHas(s[..|s| - 1], keep, i);
    }
  }

  // ----- the order of the groups -----

  function IdsOf(groups: seq<Group>): seq<string> {
    if groups == [] then [] else IdsOf(groups[..|groups| - 1]) + [groups[|groups| - 1].id]
  }

  function HasFiles(u: Rules, items: seq<Entry>, cs: seq<Candidate>): string -> bool {
    (id: string) => FilesOf(u, items, cs, id) != []
  }

  lemma {:induction false} VisibleIds(u: Rules, items: seq<Entry>, cs: seq<Candidate>, ids: seq<string>,
                                      groups: seq<Group>)
    requires |groups| == |ids|
    requires forall i :: 0 <= i < |ids| ==> groups[i] == WithSortedFiles(GroupOf(u, items, cs, ids[i]))
    ensures IdsOf(Filter(groups, Visible)) == Filter(ids, HasFiles(u, items, cs))
  {
    if ids != [] {
      var n := |ids| - 1;
      var keep := HasFiles(u, items, cs);
      VisibleIds(u, items, cs, ids[..n], groups[..n]);
      assert groups == groups[..n] + [groups[n]] && ids == ids[..n] + [ids[n]];
      assert Visible(groups[n]) <==> keep(ids[n]);
      assert groups[n].id == ids[n];
      FilterAppend(groups[..n], groups[n], Visible);
      FilterAppend(ids[..n], ids[n], keep);
      IdsAppend(Filter(groups[..n], Visible), groups[n]);
    }
  }

  lemma IdsAppend(groups: seq<Group>, g: Group)
    ensures IdsOf(groups + [g]) == IdsOf(groups) + [g.id] && IdsOf(groups + []) == IdsOf(groups)
  {
    assert (groups + [g])[..|groups|] == groups && groups + [] == groups;
  }

  /** The ids of the visible groups are distinct: those that have files, in the order in which the results first
      mention them. */
  lemma IdsAreInOrder(u: Rules, items: seq<Entry>)
    ensures var cs := Candidates(u, items);
      IdsOf(SearchResult(u, items)) == Filter(GroupIds(u, items, cs), HasFiles(u, items, cs))
    ensures NoDuplicates(IdsOf(SearchResult(u, items)))
  {
    var cs := Candidates(u, items);
    var ids := GroupIds(u, items, cs);
    IdsAreDistinct(u, items, cs);
    hide Candidates, GroupIds, Filter, FilesOf, GroupOf;
    VisibleIds(u, items, cs, ids, AllGroups(u, items));
    FilterDistinct(ids, HasFiles(u, items, cs));
  }

  lemma {:induction false} FilterDistinct(s: seq<string>, keep: string -> bool)
    requires NoDuplicates(s)
    ensures NoDuplicates(Filter(s, keep))
  {
    if s != [] {
      FilterDistinct(s[..|s| - 1], keep);
      FilterKeeps(s[..|s| - 1], keep);
    }
  }
}
