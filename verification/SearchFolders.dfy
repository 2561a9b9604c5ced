/** Which group a search result belongs to, told from the results themselves. */
module SearchFolders {
  import opened Prelude
  import opened Text
  import opened StableSort
  import opened TransferStream
  import opened SearchGroups

  /** The title of a result: its cleaned group name, or without one its cleaned name. */
  predicate Titled(u: Rules, item: Entry, title: string) {
    title == u.cleanTitle(if TrimSpace(item.groupName) != "" then TrimSpace(item.groupName) else TrimSpace(item.name))
  }

  /** A folder that is no virtual search folder, under the key of its title. */
  ghost predicate RealFolder(u: Rules, item: Entry, key: string) {
    item.isDir && key != "" && exists title :: Titled(u, item, title) && !u.isVirtual(title) && u.matchKey(title) == key
  }

  ghost predicate FirstFolder(u: Rules, items: seq<Entry>, key: string, i: nat) {
    && i < |items| && RealFolder(u, items[i], key)
    && forall j :: 0 <= j < i ==> !RealFolder(u, items[j], key)
  }

  ghost predicate Known(u: Rules, items: seq<Entry>, key: string) {
    exists i: nat :: i < |items| && RealFolder(u, items[i], key)
  }

  /** What a folder gives to its group: its trimmed group id, or one made from the key, and its title. */
  ghost predicate Gives(u: Rules, folder: Entry, key: string, group: (string, string)) {
    && Titled(u, folder, group.1)
    && group.0 == if TrimSpace(folder.groupId) != "" then TrimSpace(folder.groupId) else "folder:" + key
  }

  /** The group that `resolveClientMediaFolder` finds among all the results. */
  function Found(u: Rules, items: seq<Entry>, item: Entry): (string, string) {
    Resolve(u, item, Candidates(u, items), ByKey(Candidates(u, items)))
  }

  // ----- the folders that are looked up -----

  lemma RealIff(u: Rules, item: Entry, key: string)
    ensures RealFolder(u, item, key)
            <==> item.isDir && key != "" && !u.isVirtual(TitleOf(u, item)) && u.matchKey(TitleOf(u, item)) == key
  {
    assert Titled(u, item, TitleOf(u, item));
  }

  lemma {:induction false} FirstExists(u: Rules, items: seq<Entry>, key: string)
    ensures Known(u, items, key) <==> exists i: nat :: FirstFolder(u, items, key, i)
  {
    hide RealFolder;
    if items != [] {
      var front := items[..|items| - 1];
      FirstExists(u, front, key);
      if i: nat :| FirstFolder(u, front, key, i) {
        assert FirstFolder(u, items, key, i);
      } else if RealFolder(u, items[|items| - 1], key) {
        forall j | 0 <= j < |items| - 1 ensures !RealFolder(u, items[j], key) {
          assert front[j] == items[j];
        }
        assert FirstFolder(u, items, key, |items| - 1);
      }
    }
  }

  lemma LastFolder(u: Rules, items: seq<Entry>, key: string)
    requires items != []
    ensures var n := |items| - 1;
      Known(u, items, key) <==> Known(u, items[..n], key) || RealFolder(u, items[n], key)
  {
    hide RealFolder;
    var n := |items| - 1;
    if Known(u, items[..n], key) {
      var i: nat :| i < n && RealFolder(u, items[..n][i], key);
      assert items[..n][i] == items[i];
    }
    if Known(u, items, key) && !RealFolder(u, items[n], key) {
      var i: nat :| i < |items| && RealFolder(u, items[i], key);
      assert items[..n][i] == items[i];
    }
  }

  /** The candidates are exactly the first real folders, one for every key. */
  lemma {:induction false} FoldersAreFirst(u: Rules, items: seq<Entry>, key: string)
    ensures HasKey(Folders(u, items), key) <==> Known(u, items, key)
    ensures forall i: nat :: FirstFolder(u, items, key, i) ==> CandidateFor(u, items[i]) in Folders(u, items)
  {
    hide RealFolder, CandidateFor, TitleOf;
    if items != [] {
      var n := |items| - 1;
      var front := items[..n];
      FoldersAreFirst(u, front, key);
      RealIff(u, items[n], key);
      LastFolder(u, items, key);
      if NewCandidate(u, items[n], Folders(u, front)) {
        AddedKey(Folders(u, front), CandidateFor(u, items[n]));
        KeyOf(u, items[n]);
      }
      forall i: nat | FirstFolder(u, items, key, i) ensures CandidateFor(u, items[i]) in Folders(u, items) {
        if i < n {
          assert FirstFolder(u, front, key, i);
          assert items[i] == front[i];
        } else {
          assert !Known(u, front, key) by {
            forall j: nat | j < |front| ensures !RealFolder(u, front[j], key) {
              assert front[j] == items[j];
            }
          }
        }
      }
    }
  }

  lemma KeyOf(u: Rules, item: Entry)
    ensures CandidateFor(u, item).key == u.matchKey(TitleOf(u, item))
  {
  }

  lemma {:induction false} LookupFinds(cs: seq<Candidate>, key: string)
    requires KeysOk(cs)
    ensures key in ByKey(cs) <==> HasKey(cs, key)
    ensures forall c <- cs :: c.key == key ==> key in ByKey(cs) && ByKey(cs)[key] == c
  {
    if cs != [] {
      var n := |cs| - 1;
      assert KeysOk(cs[..n]);
      LookupFinds(cs[..n], key);
      assert cs == cs[..n] + [cs[n]];
      AddedKey(cs[..n], cs[n]);
      hide KeysOk;
    }
  }

  lemma SameKeys(a: seq<Candidate>, b: seq<Candidate>, key: string)
    requires multiset(a) == multiset(b)
    ensures HasKey(a, key) <==> HasKey(b, key)
    ensures forall c :: c in a <==> c in b
  {
    forall c ensures c in a <==> c in b {
      assert c in multiset(a) <==> c in multiset(b);
    }
    if i :| 0 <= i < |a| && a[i].key == key {
      assert a[i] in b;
    }
    if i :| 0 <= i < |b| && b[i].key == key {
      assert b[i] in a;
    }
  }

  /** Looking up a key finds the first real folder with it, if there is one. */
  lemma LookupIsFirst(u: Rules, items: seq<Entry>, key: string)
    ensures key in ByKey(Candidates(u, items)) <==> Known(u, items, key)
    ensures forall i: nat :: FirstFolder(u, items, key, i) ==>
              && key in ByKey(Candidates(u, items))
              && var c := ByKey(Candidates(u, items))[key];
              c == CandidateFor(u, items[i]) && Gives(u, items[i], key, (c.id, c.title))
  {
    var cs := Candidates(u, items);
    CandidateKeys(u, items);
    FoldersAreFirst(u, items, key);
    SameKeys(Folders(u, items), cs, key);
    LookupFinds(cs, key);
    hide Candidates, Folders, ByKey, KeysOk, HasKey;
    forall i: nat | FirstFolder(u, items, key, i)
      ensures key in ByKey(cs) && ByKey(cs)[key] == CandidateFor(u, items[i])
      ensures Gives(u, items[i], key, (CandidateFor(u, items[i]).id, CandidateFor(u, items[i]).title))
    {
      RealIff(u, items[i], key);
      KeyOf(u, items[i]);
    }
  }

  // ----- the branches -----

  /** A result whose own title has the key of a real folder belongs to the first such folder: every folder, and
      every file outside the virtual search folders. */
  lemma OwnTitleDecides(u: Rules, items: seq<Entry>, item: Entry, title: string, i: nat)
    requires Titled(u, item, title) && (item.isDir || !u.isVirtual(title))
    requires FirstFolder(u, items, u.matchKey(title), i)
    ensures Gives(u, items[i], u.matchKey(title), Found(u, items, item))
  {
    LookupIsFirst(u, items, u.matchKey(title));
    hide Candidates, ByKey, RealFolder, Gives, FirstPrefix;
  }

  /** No real folder's key starts the key of the file name. */
  ghost predicate NoPrefix(u: Rules, items: seq<Entry>, item: Entry) {
    forall key :: Known(u, items, key) ==> !(key <= u.matchKey(u.stem(item.name)))
  }

  lemma PrefixIff(u: Rules, items: seq<Entry>, item: Entry)
    ensures FirstPrefix(Candidates(u, items), u.matchKey(u.stem(item.name))).None? <==> NoPrefix(u, items, item)
  {
    var cs, own := Candidates(u, items), u.matchKey(u.stem(item.name));
    CandidateKeys(u, items);
    FirstPrefixIsFirst(cs, own);
    forall key ensures HasKey(cs, key) <==> Known(u, items, key) {
      FoldersAreFirst(u, items, key);
      SameKeys(Folders(u, items), cs, key);
    }
    hide Candidates, Folders, FirstPrefix, KeysOk, Known;
    if FirstPrefix(cs, own).Some? {
      var c := FirstPrefix(cs, own).value;
      assert HasKey(cs, c.key) && c.key <= own;
    } else {
      forall key | Known(u, items, key) ensures !(key <= own) {
        assert HasKey(cs, key);
      }
    }
  }

  /** The title that counts: the inferred one for a result in a virtual search folder, else its own. */
  predicate Counts(u: Rules, item: Entry, title: string, counting: string) {
    counting == if u.isVirtual(title) then u.inferTitle(item.name) else title
  }

  /** Nothing decides before the title that counts does. */
  ghost predicate Undecided(u: Rules, items: seq<Entry>, item: Entry, title: string) {
    && (item.isDir ==> !Known(u, items, u.matchKey(title)))
    && (u.isVirtual(title) ==> NoPrefix(u, items, item))
  }

  /** In a virtual search folder, and without a prefix, the inferred title decides; elsewhere the own one. */
  lemma CountingTitleDecides(u: Rules, items: seq<Entry>, item: Entry, title: string, counting: string, i: nat)
    requires Titled(u, item, title) && Counts(u, item, title, counting) && Undecided(u, items, item, title)
    requires FirstFolder(u, items, u.matchKey(counting), i)
    ensures Gives(u, items[i], u.matchKey(counting), Found(u, items, item))
  {
    LookupIsFirst(u, items, u.matchKey(title));
    LookupIsFirst(u, items, u.matchKey(counting));
    PrefixIff(u, items, item);
    hide Candidates, ByKey, FirstFolder, Known, NoPrefix, Gives, FirstPrefix;
  }

  /** Without a folder a result stays in its own group, or in one inferred from its title if that has no id or is a
      virtual search folder; a result without any title makes a group of its own. */
  lemma NoFolderDecides(u: Rules, items: seq<Entry>, item: Entry, title: string, counting: string)
    requires Titled(u, item, title) && Counts(u, item, title, counting) && Undecided(u, items, item, title)
    requires !Known(u, items, u.matchKey(counting))
    ensures var last := if counting == "" then u.inferTitle(item.name) else counting;
      Found(u, items, item) ==
        if u.matchKey(last) == "" then
          (if TrimSpace(item.path) != "" then TrimSpace(item.path) else TrimSpace(item.name), u.unnamed)
        else if TrimSpace(item.groupId) == "" || u.isVirtual(item.groupName) then
          ("inferred:" + u.matchKey(last), last)
        else (TrimSpace(item.groupId), last)
  {
    LookupIsFirst(u, items, u.matchKey(title));
    LookupIsFirst(u, items, u.matchKey(counting));
    PrefixIff(u, items, item);
    hide Candidates, ByKey, FirstFolder, Known, NoPrefix, FirstPrefix;
  }

  /** A result in a virtual search folder goes to the real folder with the longest key that starts the key of its
      file name. */
  lemma PrefixDecides(u: Rules, items: seq<Entry>, item: Entry, title: string) returns (key: string, i: nat)
    requires Titled(u, item, title) && u.isVirtual(title) && !NoPrefix(u, items, item)
    requires item.isDir ==> !Known(u, items, u.matchKey(title))
    ensures FirstFolder(u, items, key, i) && Gives(u, items[i], key, Found(u, items, item))
    ensures key <= u.matchKey(u.stem(item.name))
    ensures forall k :: Known(u, items, k) && k <= u.matchKey(u.stem(item.name)) && k != key ==> |k| < |key|
  {
    var cs, own := Candidates(u, items), u.matchKey(u.stem(item.name));
    LookupIsFirst(u, items, u.matchKey(title));
    PrefixIff(u, items, item);
    CandidateKeys(u, items);
    FirstPrefixIsFirst(cs, own);
    var c := FirstPrefix(cs, own).value;
    assert c in cs;
    LongestOfFirst(cs, own, c);
    LookupFinds(cs, c.key);
    key := c.key;
    LookupIsFirst(u, items, key);
    FirstExists(u, items, key);
    i :| FirstFolder(u, items, key, i);
    forall k | Known(u, items, k) && k <= own && k != key ensures |k| < |key| {
      LookupIsFirst(u, items, k);
      LookupFinds(cs, k);
    }
    hide Candidates, ByKey, Known, NoPrefix, FirstPrefix, KeysOk, Ordered, FirstFolder, Gives;
  }

  // ----- what the visible groups hold -----

  lemma {:induction false} FilterCounts<T>(s: seq<T>, keep: T -> bool, x: T)
    ensures multiset(Filter(s, keep))[x] == if keep(x) then multiset(s)[x] else 0
  {
    if s != [] {
      var n := |s| - 1;
      FilterCounts(s[..n], keep, x);
      assert s == s[..n] + [s[n]];
    }
  }

  /** Every file that counts as media is in the visible groups as often as in the results, and nothing else is. */
  lemma ExactlyTheMedia(u: Rules, items: seq<Entry>, x: Entry)
    ensures Contents(SearchResult(u, items))[x] == if !x.isDir && u.isMedia(x.name) then multiset(items)[x] else 0
  {
    MediaIsConserved(u, items);
    FilterCounts(items, MediaFiles(u), x);
    hide SearchResult, Contents, Filter;
  }

  /** A media file is in the visible group that its folder decides, and in no other one. */
  lemma MediaFileIsInItsGroup(u: Rules, items: seq<Entry>, k: nat) returns (g: Group)
    requires k < |items| && !items[k].isDir && u.isMedia(items[k].name)
    ensures g in SearchResult(u, items) && items[k] in g.files && g.id == Found(u, items, items[k]).0
    ensures forall other :: other in SearchResult(u, items) && items[k] in other.files ==> other.id == g.id
  {
    var cs := Candidates(u, items);
    var id := IdOf(u, items[k], cs);
    var files := FilesOf(u, items, cs, id);
    FilterHas(items, InGroup(u, cs, id), k);
    hide Resolve, Candidates, ByKey;
    GroupIsVisible(u, items, k);
    g := WithSortedFiles(GroupOf(u, items, cs, id));
    SortedFilesAreSound(files);
    assert items[k] in multiset(g.files);
    forall other | other in SearchResult(u, items) && items[k] in other.files ensures other.id == g.id {
      FilesBelong(u, items, other, items[k]);
    }
  }

  lemma FilesBelong(u: Rules, items: seq<Entry>, g: Group, x: Entry)
    requires g in SearchResult(u, items) && x in g.files
    ensures g.id == Found(u, items, x).0
  {
    var cs := Candidates(u, items);
    var files := FilesOf(u, items, cs, g.id);
    GroupsAreSound(u, items, g);
    FilterKeeps(items, InGroup(u, cs, g.id));
    assert x in multiset(g.files) && x in multiset(files) by {
      hide SearchResult, Candidates, FilesOf, FirstMaximum, Ordered, TotalSize, GroupTitle, Wrap64;
    }
    assert x in files;
    hide SearchResult, Candidates, Resolve, ByKey, SoundGroup;
  }

  lemma {:induction false} TitleIsFirst(u: Rules, items: seq<Entry>, cs: seq<Candidate>, id: string)
    requires exists i :: 0 <= i < |items| && IdOf(u, items[i], cs) == id
    ensures exists i :: 0 <= i < |items| && IdOf(u, items[i], cs) == id
              && (forall j :: 0 <= j < i ==> IdOf(u, items[j], cs) != id)
              && GroupTitle(u, items, cs, id) == Resolve(u, items[i], cs, ByKey(cs)).1
  {
    hide IdOf, Resolve, ByKey;
    if IdOf(u, items[0], cs) != id {
      var tail := items[1..];
      var i :| 0 <= i < |items| && IdOf(u, items[i], cs) == id;
      assert tail[i - 1] == items[i];
      TitleIsFirst(u, tail, cs, id);
      var k :| 0 <= k < |tail| && IdOf(u, tail[k], cs) == id
            && (forall j :: 0 <= j < k ==> IdOf(u, tail[j], cs) != id)
            && GroupTitle(u, tail, cs, id) == Resolve(u, tail[k], cs, ByKey(cs)).1;
      assert items[k + 1] == tail[k];
      forall j | 0 <= j < k + 1 ensures IdOf(u, items[j], cs) != id {
        assert j > 0 ==> items[j] == tail[j - 1];
      }
    }
  }

  /** The first label that is not empty, over the files in the order of the results; empty if there is none. */
  ghost predicate FirstLabel(u: Rules, files: seq<Entry>, title: string, found: string) {
    if found == "" then forall f <- files :: u.quality(f.name + " " + title) == ""
    else exists i :: 0 <= i < |files| && u.quality(files[i].name + " " + title) == found
           && forall j :: 0 <= j < i ==> u.quality(files[j].name + " " + title) == ""
  }

  lemma {:induction false} QualityIsFirst(u: Rules, files: seq<Entry>, title: string)
    ensures FirstLabel(u, files, title, Quality(u, files, title))
  {
    if files != [] {
      var n := |files| - 1;
      var front := files[..n];
      QualityIsFirst(u, front, title);
      var found := Quality(u, front, title);
      assert files == front + [files[n]];
      if found != "" {
        var i :| 0 <= i < n && u.quality(front[i].name + " " + title) == found
              && forall j :: 0 <= j < i ==> u.quality(front[j].name + " " + title) == "";
        assert files[i] == front[i];
        assert forall j :: 0 <= j < n ==> files[j] == front[j];
      } else if Quality(u, files, title) != "" {
        assert forall j :: 0 <= j < n ==> files[j] == front[j] && front[j] in front;
      }
    }
  }

  /** A visible group has the title that the first of its results was given, and the first quality label that its
      files give under that title. */
  lemma GroupReads(u: Rules, items: seq<Entry>, g: Group)
    requires g in SearchResult(u, items)
    ensures exists i :: 0 <= i < |items| && Found(u, items, items[i]) == (g.id, g.title)
              && forall j :: 0 <= j < i ==> Found(u, items, items[j]).0 != g.id
    ensures FirstLabel(u, FilesOf(u, items, Candidates(u, items), g.id), g.title, g.quality)
  {
    var cs := Candidates(u, items);
    FilterKeeps(AllGroups(u, items), Visible);
    IdsAreDistinct(u, items, cs);
    var n :| 0 <= n < |AllGroups(u, items)| && AllGroups(u, items)[n] == g;
    assert g.id in GroupIds(u, items, cs);
    QualityIsFirst(u, FilesOf(u, items, cs, g.id), g.title);
    TitleIsFirst(u, items, cs, g.id);
    hide Candidates, Resolve, ByKey, Quality, GroupTitle, FilesOf, Filter, GroupIds, Sort, Largest, TotalSize;
  }
}
