/** The directories behind the remote search, as the untrusted server lists them, and what can be reached
    from the root. The graph may be cyclic: an entry may name any path within the root. */
module RemoteGraph {
  import opened Prelude
  import Text
  import opened RemotePath

  const MAX_ENTRIES := 50_000
  const MAX_DIRECTORIES := 2_000
  const MAX_DEPTH := 32

  /** One directory listing as it arrives: replies of items, some of them empty, and then the end or an error. */
  datatype Stream = Stream(replies: seq<seq<Option<File>>>, broken: bool)

  /** The root, the listings (a directory without one cannot be opened), and the entries of the root if they are
      already known. */
  datatype Graph = Graph(root: string, listings: map<string, Stream>, prefetched: Option<seq<File>>)

  /** `lower` is Unicode lower-casing. */
  datatype Query = Query(text: string, lower: string -> string)

  function Flatten<T>(parts: seq<seq<T>>): seq<T> {
    if parts == [] then [] else parts[0] + Flatten(parts[1..])
  }

  function Present(items: seq<Option<File>>): seq<File> {
    if items == [] then []
    else (if items[0].Some? then [items[0].value] else []) + Present(items[1..])
  }

  lemma {:induction false} FlattenAppend<T>(parts: seq<seq<T>>, last: seq<T>)
    ensures Flatten(parts + [last]) == Flatten(parts) + last
  {
    if parts == [] {
      assert [last][1..] == [];
    } else {
      assert (parts + [last])[1..] == parts[1..] + [last];
      FlattenAppend(parts[1..], last);
    }
  }

  lemma {:induction false} PresentAppend(items: seq<Option<File>>, last: Option<File>)
    ensures Present(items + [last]) == Present(items) + if last.Some? then [last.value] else []
  {
    if items == [] {
      assert [last][1..] == [];
    } else {
      var all := items + [last];
      assert all[0] == items[0] && all[1..] == items[1..] + [last];
      PresentAppend(items[1..], last);
      assert Present(all) == (if all[0].Some? then [all[0].value] else []) + Present(all[1..]);
    }
  }

  lemma {:induction false} FlattenPrefix<T>(parts: seq<seq<T>>, i: nat)
    requires i <= |parts|
    ensures |Flatten(parts[..i])| <= |Flatten(parts)|
    decreases |parts| - i
  {
    if i == |parts| {
      assert parts[..i] == parts;
    } else {
      FlattenPrefix(parts, i + 1);
      FlattenAppend(parts[..i], parts[i]);
      assert parts[..i + 1] == parts[..i] + [parts[i]];
    }
  }

  predicate Prefetched(g: Graph, d: string) {
    d == g.root && g.prefetched.Some?
  }

  /** The directory can be read to its end. */
  predicate Readable(g: Graph, d: string) {
    Prefetched(g, d) || (d in g.listings && !g.listings[d].broken)
  }

  function Entries(g: Graph, d: string): seq<File>
    requires Readable(g, d)
  {
    if Prefetched(g, d) then g.prefetched.value else Present(Flatten(g.listings[d].replies))
  }

  /** Items that have to be received when the directory is listed. */
  function ItemCount(g: Graph, d: string): nat {
    if Prefetched(g, d) || d !in g.listings then 0 else |Flatten(g.listings[d].replies)|
  }

  function TotalItems(g: Graph, dirs: seq<string>): nat {
    if dirs == [] then 0 else TotalItems(g, dirs[..|dirs| - 1]) + ItemCount(g, dirs[|dirs| - 1])
  }

  /** An entry that is not refused, as the search sees it. */
  function Entry(g: Graph, d: string, k: nat): Option<File>
    requires Readable(g, d) && k < |Entries(g, d)|
  {
    var f := NormalizeListed(g.root, d, Entries(g, d)[k]);
    if f.Some? && f.value.isForbidden then None else f
  }

  ghost predicate IsDirAt(g: Graph, d: string, k: nat, b: string)
    requires Readable(g, d) && k < |Entries(g, d)|
  {
    Entry(g, d, k).Some? && Entry(g, d, k).value.isDir && Entry(g, d, k).value.fullPath == b
  }

  /** Directory `b` is listed in directory `a`. */
  ghost predicate Child(g: Graph, a: string, b: string) {
    Readable(g, a) && exists k: nat :: k < |Entries(g, a)| && IsDirAt(g, a, k, b)
  }

  /** There is a chain of `n` listings from the root to `d`. */
  ghost predicate ReachableIn(g: Graph, n: nat, d: string) {
    if n == 0 then d == g.root else exists a :: ReachableIn(g, n - 1, a) && Child(g, a, d)
  }

  ghost predicate Reachable(g: Graph, d: string) {
    exists n: nat :: ReachableIn(g, n, d)
  }

  /** The shortest chain has length `n`. */
  ghost predicate Distance(g: Graph, d: string, n: nat) {
    ReachableIn(g, n, d) && forall m: nat :: m < n ==> !ReachableIn(g, m, d)
  }

  predicate Contains(s: string, t: string) {
    exists i :: 0 <= i <= |s| && t <= s[i..]
  }

  predicate Matches(q: Query, name: string) {
    Contains(q.lower(name), q.lower(q.text))
  }

  ghost predicate MatchAt(g: Graph, q: Query, d: string, k: nat, f: File)
    requires Readable(g, d) && k < |Entries(g, d)|
  {
    Entry(g, d, k) == Some(f) && Matches(q, f.name)
  }

  /** A matching entry of a directory. */
  ghost predicate AnswerIn(g: Graph, q: Query, d: string, f: File) {
    Readable(g, d) && exists k: nat :: k < |Entries(g, d)| && MatchAt(g, q, d, k, f)
  }

  /** What the search is for: the matching entries of the directories that can be reached. */
  ghost predicate Answer(g: Graph, q: Query, f: File) {
    exists d :: Reachable(g, d) && AnswerIn(g, q, d, f)
  }

  /** Accepted entries have a path, so results are told apart by it. */
  lemma EntryHasPath(g: Graph, d: string, k: nat)
    requires Readable(g, d) && k < |Entries(g, d)| && Entry(g, d, k).Some?
    ensures Entry(g, d, k).value.fullPath != ""
  {
    hide Clean, Text.TrimSpace, Text.ByteLength, ForwardSlashes, Within, GoodName, Base, JoinPath;
  }
}
