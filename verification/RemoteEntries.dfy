/** Which listed entries the search accepts and under which paths, told on path segments. */
module RemoteEntries {
  import opened Prelude
  import opened Text
  import opened RemotePath
  import opened RemoteGraph

  // ----- what the segments of a path are -----

  /** The root has no segments; a further segment is appended, "" and "." change nothing, and ".." takes the last
      one back, if there is one. These laws determine the segments of every path. */
  lemma SegmentLaws(path: string, last: string)
    requires '/' !in last
    ensures Segments("/") == []
    ensures Segments(path + "/" + last) ==
            if last == "" || last == "." then Segments(path)
            else if last == ".." then (if Segments(path) == [] then [] else Segments(path)[..|Segments(path)| - 1])
            else Segments(path) + [last]
  {
    SegmentsOfRoot();
    SplitAtSlash(path, last);
    SplitOfPart(last);
    ReduceOfConcat(Split(path), [last], true, []);
    if Segments(path) != [] {
      SegmentsArePlain(path);
      assert Plain(Segments(path)[|Segments(path)| - 1]);
    }
    assert [last][1..] == [];
  }

  /** A path is accepted exactly if, without white space at its ends, it is absolute, not too long and free of
      NUL; its normal form is the path of its segments. Nothing stands for the root. */
  lemma NormalizeIff(value: string)
    ensures var trimmed := TrimSpace(ForwardSlashes(value));
      var v := if trimmed == "" then "/" else trimmed;
      && (NormalizePath(value).Some? <==> v[0] == '/' && '\0' !in v && ByteLength(v) <= 4096)
      && (NormalizePath(value).Some? ==> NormalizePath(value).value == "/" + Join(Segments(v)))
  {
    var trimmed := TrimSpace(ForwardSlashes(value));
    var v := if trimmed == "" then "/" else trimmed;
    hide TrimSpace, ForwardSlashes, ByteLength, Reduce, Split, Join;
    assert "/" <= v <==> v[0] == '/';
    if v[0] == '/' {
      assert Clean(v) == "/" + Join(Segments(v)) && Clean(v)[0] == '/' && "/" <= Clean(v);
    }
  }

  // ----- entries -----

  predicate NameAllowed(name: string) {
    name != "." && name != ".." && ByteLength(name) <= 1024 && '/' !in name && '\\' !in name && '\0' !in name
  }

  predicate SegmentAllowed(name: string) {
    name != "" && name != "." && name != ".." && '/' !in name && '\\' !in name && '\0' !in name
  }

  /** The last segment, and "/" for the root. */
  function LastOf(parts: seq<string>): string {
    if parts == [] then "/" else parts[|parts| - 1]
  }

  /** The segments an entry of directory `d` stands for: those of an absolute path as it is given, or one
      segment below `d`. */
  ghost predicate StandsFor(d: string, file: File, parts: seq<string>) {
    var given := TrimSpace(ForwardSlashes(file.fullPath));
    if given != "" && given[0] == '/' then
      parts == Segments(given) && '\0' !in given && ByteLength(given) <= 4096
    else
      var segment := if given == "" then TrimSpace(file.name) else given;
      SegmentAllowed(segment) && parts == Segments(d) + [segment] && ByteLength("/" + Join(parts)) <= 4096
  }

  /** The entry is accepted with the path of these segments, which lies within the root and is not the directory
      itself, and under its own name or, without one, the last segment. */
  ghost predicate AcceptedAs(root: string, d: string, file: File, parts: seq<string>, f: File) {
    && StandsFor(d, file, parts) && Segments(root) <= parts && "/" + Join(parts) != d
    && NameAllowed(f.name)
    && f == file.(fullPath := "/" + Join(parts),
                  name := if TrimSpace(file.name) != "" then TrimSpace(file.name) else LastOf(parts))
  }

  ghost predicate ListedAs(root: string, d: string, file: File, f: File) {
    exists parts :: AcceptedAs(root, d, file, parts, f)
  }

  lemma BaseOfSegments(parts: seq<string>)
    requires AllPlain(parts)
    ensures Base("/" + Join(parts)) == LastOf(parts)
  {
    if parts == [] {
      assert "/" + Join([]) == "/";
      assert StripSlashes("/") == StripSlashes("/"[..0]) == "";
    } else {
      var n := |parts| - 1;
      assert parts == parts[..n] + [parts[n]];
      assert Plain(parts[n]);
      BaseOfPath(parts[..n], parts[n]);
    }
  }

  lemma TrimmedForward(s: string)
    ensures var given := TrimSpace(ForwardSlashes(s));
      ForwardSlashes(given) == given && TrimSpace(given) == given
  {
    hide IsSpace;
    var forward := ForwardSlashes(s);
    TrimChars(forward);
    TrimChars(TrimLeft(forward));
    TrimSpaceIsTrimmed(forward);
    TrimSpaceOfTrimmed(TrimSpace(forward));
    var given := TrimSpace(forward);
    forall i | 0 <= i < |given| ensures given[i] != '\\' {
      assert given[i] in given && given[i] in forward;
    }
    assert ForwardSlashes(given) == given;
  }

  /** An absolute path that is listed is taken as it is. */
  lemma AbsolutePath(root: string, given: string)
    requires IsClean(root) && given != "" && given[0] == '/'
    requires ForwardSlashes(given) == given && TrimSpace(given) == given
    ensures var r, path := NormalizePath(given), "/" + Join(Segments(given));
      && (r.Some? <==> '\0' !in given && ByteLength(given) <= 4096) && (r.Some? ==> r.value == path)
      && (Within(root, path) <==> Segments(root) <= Segments(given))
      && Base(path) == LastOf(Segments(given))
  {
    NormalizeIff(given);
    SegmentsArePlain(given);
    PathOfSegments(Segments(given));
    BaseOfSegments(Segments(given));
    WithinIffPrefix(root, "/" + Join(Segments(given)));
  }

  /** An entry with an absolute path is accepted exactly if the path has no NUL and is not too long, its segments
      start with those of the root, it is not the directory it was found in, and its name is allowed; its path
      is then that of its segments. */
  lemma AbsoluteEntryIff(root: string, d: string, file: File)
    requires IsClean(root)
    requires var given := TrimSpace(ForwardSlashes(file.fullPath)); given != "" && given[0] == '/'
    ensures var given := TrimSpace(ForwardSlashes(file.fullPath));
      var parts, own, r := Segments(given), TrimSpace(file.name), NormalizeListed(root, d, file);
      var name := if own != "" then own else if parts == [] then "/" else parts[|parts| - 1];
      && (r.Some? <==>
            && '\0' !in given && ByteLength(given) <= 4096
            && Segments(root) <= parts && "/" + Join(parts) != d
            && name != "." && name != ".." && ByteLength(name) <= 1024
            && '/' !in name && '\\' !in name && '\0' !in name)
      && (r.Some? ==> r.value == file.(fullPath := "/" + Join(parts), name := name))
  {
    TrimmedForward(file.fullPath);
    AbsolutePath(root, TrimSpace(ForwardSlashes(file.fullPath)));
    hide TrimSpace, ForwardSlashes, ByteLength, Join, Segments, Base, NormalizePath, Within;
  }

  lemma NamedEntryIff(root: string, d: string, file: File)
    requires IsClean(root) && IsNormal(d) && Within(root, d) && GivenByName(file)
    ensures var segment, r := SegmentOf(file), NormalizeListed(root, d, file);
      var parts := Segments(d) + [segment];
      && (r.Some? <==>
            && SegmentAllowed(segment) && ByteLength("/" + Join(parts)) <= 4096 && NameAllowed(NameOf(file, segment)))
      && (r.Some? ==> r.value == file.(fullPath := "/" + Join(parts), name := NameOf(file, segment)))
      && Segments(root) <= parts && (SegmentAllowed(segment) ==> "/" + Join(parts) != d)
  {
    var segment := SegmentOf(file);
    NamedEntryIsOneBelow(root, d, file);
    hide NormalizeListed, SegmentOf, NameOf, GivenByName;
    WithinIffPrefix(root, d);
    CleanFacts(d);
    if SegmentAllowed(segment) {
      JoinPathAddsSegment(d, segment);
    }
    NotItself(Segments(d), segment);
    hide TrimSpace, ByteLength, Join, Segments, Within, IsSpace, JoinPath;
    if NormalizeListed(root, d, file).Some? {
      AcceptedIsContained(root, d, file);
    }
  }

  lemma NotItself(parts: seq<string>, segment: string)
    ensures "/" + Join(parts + [segment]) != "/" + Join(parts) || segment == ""
  {
    if parts != [] {
      JoinOfConcat(parts, [segment]);
    } else {
      assert parts + [segment] == [segment];
    }
    assert ("/" + Join(parts + [segment]))[1..] == Join(parts + [segment]);
    assert ("/" + Join(parts))[1..] == Join(parts);
  }

  /** Exactly the entries that may be are accepted, and as they may be. */
  lemma ListedIff(root: string, d: string, file: File, f: File)
    requires IsClean(root) && IsNormal(d) && Within(root, d)
    ensures NormalizeListed(root, d, file) == Some(f) <==> ListedAs(root, d, file, f)
  {
    var given := TrimSpace(ForwardSlashes(file.fullPath));
    assert "/" <= given <==> given != "" && given[0] == '/';
    if given != "" && given[0] == '/' {
      AbsoluteEntryIff(root, d, file);
      hide TrimSpace, ForwardSlashes, ByteLength, Join, Segments, NormalizeListed, IsNormal, IsClean, Within;
      assert AcceptedAs(root, d, file, Segments(given), f) <==> ListedAs(root, d, file, f);
    } else {
      NamedEntryIff(root, d, file);
      var parts := Segments(d) + [SegmentOf(file)];
      hide TrimSpace, ForwardSlashes, ByteLength, Join, Segments, NormalizeListed, IsNormal, IsClean, Within;
      assert AcceptedAs(root, d, file, parts, f) <==> ListedAs(root, d, file, f);
    }
  }

  // ----- the directories and the answers -----

  lemma EntryIsInside(g: Graph, d: string, k: nat)
    requires IsNormal(g.root) && Readable(g, d) && k < |Entries(g, d)| && Entry(g, d, k).Some?
    ensures var p := Entry(g, d, k).value.fullPath; IsNormal(p) && Within(g.root, p)
  {
    NormalizedIsNormal(ListedPath(d, Entries(g, d)[k]).value);
    hide NormalizePath, Within, Base, ListedPath, GoodName, IsNormal, Entries, Readable, TrimSpace;
  }

  /** Every directory the walk can reach has a normal path within the root. */
  lemma {:induction false} ReachableIsInside(g: Graph, n: nat, d: string)
    requires IsNormal(g.root) && ReachableIn(g, n, d)
    ensures IsNormal(d) && Within(g.root, d)
  {
    hide IsNormal, Entries, Readable, Entry;
    if n == 0 {
      hide Within;
      RootIsInside(g.root);
    } else {
      hide Within;
      var a :| ReachableIn(g, n - 1, a) && Child(g, a, d);
      var k: nat :| k < |Entries(g, a)| && IsDirAt(g, a, k, d);
      EntryIsInside(g, a, k);
    }
  }

  lemma RootIsInside(root: string)
    requires IsNormal(root)
    ensures Within(root, root)
  {
  }

  /** An entry of a reachable directory is seen by the search exactly if it may be and is not forbidden. */
  lemma EntryIff(g: Graph, d: string, k: nat, f: File)
    requires IsNormal(g.root) && Reachable(g, d) && Readable(g, d) && k < |Entries(g, d)|
    ensures Entry(g, d, k) == Some(f) <==> ListedAs(g.root, d, Entries(g, d)[k], f) && !f.isForbidden
  {
    hide ReachableIn;
    var n: nat :| ReachableIn(g, n, d);
    ReachableIsInside(g, n, d);
    ListedIff(g.root, d, Entries(g, d)[k], f);
    hide ListedAs, IsNormal, Within, Entries, Readable;
    if Entry(g, d, k).Some? || NormalizeListed(g.root, d, Entries(g, d)[k]) == Some(f) {
      hide NormalizeListed;
    }
  }

  ghost predicate Includes(s: string, t: string) {
    exists before, after :: s == before + t + after
  }

  lemma ContainsIff(s: string, t: string)
    ensures Contains(s, t) <==> Includes(s, t)
  {
    if i :| 0 <= i <= |s| && t <= s[i..] {
      assert s == s[..i] + t + s[i + |t|..];
    }
    if before, after :| s == before + t + after {
      assert t <= s[|before|..];
    }
  }

  /** File `f` is what the search should find: an entry of a readable directory that may be listed, is not
      forbidden, and whose lower-cased name includes the lower-cased text. */
  ghost predicate Wanted(g: Graph, q: Query, d: string, k: nat, f: File) {
    && Readable(g, d) && k < |Entries(g, d)|
    && ListedAs(g.root, d, Entries(g, d)[k], f) && !f.isForbidden
    && Includes(q.lower(f.name), q.lower(q.text))
  }

  /** The answers are exactly the wanted entries of the reachable directories. */
  lemma AnswerIff(g: Graph, q: Query, f: File)
    requires IsNormal(g.root)
    ensures Answer(g, q, f) <==> exists d, k: nat :: Reachable(g, d) && Wanted(g, q, d, k, f)
  {
    hide Reachable, ListedAs, Includes, Contains, Entries, Readable, Entry, IsNormal;
    ContainsIff(q.lower(f.name), q.lower(q.text));
    if Answer(g, q, f) {
      var d :| Reachable(g, d) && AnswerIn(g, q, d, f);
      var k: nat :| k < |Entries(g, d)| && MatchAt(g, q, d, k, f);
      EntryIff(g, d, k, f);
      assert Wanted(g, q, d, k, f);
    }
    if d, k: nat :| Reachable(g, d) && Wanted(g, q, d, k, f) {
      EntryIff(g, d, k, f);
      assert MatchAt(g, q, d, k, f);
      assert AnswerIn(g, q, d, f);
    }
  }

  /** One directory is listed in another exactly if an entry that may be says so. */
  lemma ChildIff(g: Graph, a: string, b: string)
    requires IsNormal(g.root) && Reachable(g, a) && Readable(g, a)
    ensures Child(g, a, b) <==>
            exists k: nat, f: File :: k < |Entries(g, a)| && ListedAs(g.root, a, Entries(g, a)[k], f)
              && !f.isForbidden && f.isDir && f.fullPath == b
  {
    hide Reachable, ListedAs, Entries, Readable, Entry, IsNormal;
    if Child(g, a, b) {
      var k: nat :| k < |Entries(g, a)| && IsDirAt(g, a, k, b);
      EntryIff(g, a, k, Entry(g, a, k).value);
    }
    if k: nat, f: File :| k < |Entries(g, a)| && ListedAs(g.root, a, Entries(g, a)[k], f)
                          && !f.isForbidden && f.isDir && f.fullPath == b
    {
      EntryIff(g, a, k, f);
      assert IsDirAt(g, a, k, b);
    }
  }

  /** Every wanted entry of a reachable directory is among the results under its path. */
  ghost predicate FindsAll(g: Graph, q: Query, results: seq<File>) {
    forall d, k: nat, f :: Reachable(g, d) && Wanted(g, q, d, k, f) ==> HasPath(results, f.fullPath)
  }

  ghost predicate HasPath(results: seq<File>, p: string) {
    exists i :: 0 <= i < |results| && results[i].fullPath == p
  }

  /** Every result is a wanted entry of a reachable directory. */
  ghost predicate FindsOnly(g: Graph, q: Query, results: seq<File>) {
    forall f <- results :: exists d, k: nat :: Reachable(g, d) && Wanted(g, q, d, k, f)
  }
}
