/** Paths on the remote side: lexical cleaning, and whether one path lies within another. */
module RemotePath {
  import opened Prelude
  import opened Text

  const MAX_PATH_LENGTH := 4096
  const MAX_NAME_LENGTH := 1024

  // ----- segments -----

  /** The parts of `s` between slashes. */
  function Split(s: string): (parts: seq<string>)
    ensures parts != []
  {
    if s == "" then [""]
    else if s[0] == '/' then [""] + Split(s[1..])
    else var rest := Split(s[1..]); [[s[0]] + rest[0]] + rest[1..]
  }

  function Join(parts: seq<string>): string {
    if parts == [] then "" else if |parts| == 1 then parts[0] else parts[0] + "/" + Join(parts[1..])
  }

  ghost predicate NoSlash(parts: seq<string>) {
    forall p <- parts :: '/' !in p
  }

  lemma {:induction false} SplitHasNoSlash(s: string)
    ensures NoSlash(Split(s))
  {
    if s != "" {
      SplitHasNoSlash(s[1..]);
    }
  }

  lemma {:induction false} SplitOfPart(s: string)
    requires '/' !in s
    ensures Split(s) == [s]
  {
    if s != "" {
      SplitOfPart(s[1..]);
      assert s == [s[0]] + s[1..];
    }
  }

  lemma {:induction false} SplitAtSlash(a: string, b: string)
    ensures Split(a + "/" + b) == Split(a) + Split(b)
  {
    var whole := a + "/" + b;
    if a == "" {
      assert whole[1..] == b;
    } else {
      assert whole[1..] == a[1..] + "/" + b;
      SplitAtSlash(a[1..], b);
    }
  }

  lemma {:induction false} SplitOfJoin(parts: seq<string>)
    requires NoSlash(parts) && parts != []
    ensures Split(Join(parts)) == parts
  {
    SplitOfPart(parts[0]);
    if |parts| > 1 {
      SplitOfJoin(parts[1..]);
      SplitAtSlash(parts[0], Join(parts[1..]));
    }
  }

  lemma {:induction false} JoinOfSplit(s: string)
    ensures Join(Split(s)) == s
  {
    if s != "" {
      JoinOfSplit(s[1..]);
      var rest := Split(s[1..]);
      if s[0] == '/' {
        assert Split(s)[1..] == rest;
        assert s == "/" + s[1..];
      } else {
        assert Split(s)[1..] == rest[1..];
        assert s == [s[0]] + s[1..];
      }
    }
  }

  lemma {:induction false} JoinOfConcat(a: seq<string>, b: seq<string>)
    requires a != [] && b != []
    ensures Join(a + b) == Join(a) + "/" + Join(b)
  {
    assert (a + b)[1..] == a[1..] + b;
    if |a| > 1 {
      JoinOfConcat(a[1..], b);
    } else {
      assert a[1..] + b == b;
    }
  }

  // ----- cleaning -----

  /** path.Clean on segments: "" and "." vanish, ".." removes the segment before it; at the start of an
      absolute path it vanishes too, at the start of a relative one it stays. */
  function Reduce(parts: seq<string>, rooted: bool, done: seq<string>): seq<string> {
    if parts == [] then done
    else
      var p, rest := parts[0], parts[1..];
      if p == "" || p == "." then Reduce(rest, rooted, done)
      else if p != ".." then Reduce(rest, rooted, done + [p])
      else if done != [] && done[|done| - 1] != ".." then Reduce(rest, rooted, done[..|done| - 1])
      else if rooted then Reduce(rest, rooted, done)
      else Reduce(rest, rooted, done + [p])
  }

  predicate Rooted(s: string) {
    s != "" && s[0] == '/'
  }

  function Clean(s: string): string {
    var body := Join(Reduce(Split(s), Rooted(s), []));
    if Rooted(s) then "/" + body else if body == "" then "." else body
  }

  /** A segment of a cleaned absolute path. */
  predicate Plain(p: string) {
    p != "" && p != "." && p != ".." && '/' !in p
  }

  ghost predicate AllPlain(parts: seq<string>) {
    forall p <- parts :: Plain(p)
  }

  /** The segments of an absolute path. */
  function Segments(s: string): seq<string> {
    Reduce(Split(s), true, [])
  }

  ghost predicate IsClean(s: string) {
    Rooted(s) && Clean(s) == s
  }

  lemma {:induction false} ReduceIsPlain(parts: seq<string>, done: seq<string>)
    requires NoSlash(parts) && AllPlain(done)
    ensures AllPlain(Reduce(parts, true, done))
  {
    if parts != [] {
      var p, rest := parts[0], parts[1..];
      if p == "" || p == "." {
        ReduceIsPlain(rest, done);
      } else if p != ".." {
        ReduceIsPlain(rest, done + [p]);
      } else if done != [] {
        assert Plain(done[|done| - 1]);
        ReduceIsPlain(rest, done[..|done| - 1]);
      } else {
        ReduceIsPlain(rest, done);
      }
    }
  }

  lemma {:induction false} ReduceOfPlain(parts: seq<string>, rooted: bool, done: seq<string>)
    requires AllPlain(parts)
    ensures Reduce(parts, rooted, done) == done + parts
  {
    if parts != [] {
      assert Plain(parts[0]);
      ReduceOfPlain(parts[1..], rooted, done + [parts[0]]);
      assert done + [parts[0]] + parts[1..] == done + parts;
    }
  }

  lemma SegmentsArePlain(s: string)
    ensures AllPlain(Segments(s))
  {
    SplitHasNoSlash(s);
    ReduceIsPlain(Split(s), []);
  }

  /** Plain segments are the segments of the path they form, which is clean. */
  lemma PathOfSegments(parts: seq<string>)
    requires AllPlain(parts)
    ensures IsClean("/" + Join(parts)) && Segments("/" + Join(parts)) == parts
  {
    var s := "/" + Join(parts);
    assert s[1..] == Join(parts);
    assert Split(s) == [""] + Split(Join(parts));
    assert Split(s)[1..] == Split(Join(parts));
    assert Rooted(s) && Reduce(Split(s), Rooted(s), []) == Segments(s) == Reduce(Split(Join(parts)), true, []);
    if parts == [] {
      assert Split("") == [""];
      assert Reduce([""], true, []) == [];
    } else {
      SplitOfJoin(parts);
      ReduceOfPlain(parts, true, []);
      assert [] + parts == parts;
    }
    assert Clean(s) == "/" + Join(parts);
  }

  /** Cleaning an absolute path yields a clean path with the same segments; cleaning is idempotent. */
  lemma CleanIsClean(s: string)
    requires Rooted(s)
    ensures IsClean(Clean(s)) && Segments(Clean(s)) == Segments(s)
  {
    SegmentsArePlain(s);
    PathOfSegments(Segments(s));
  }

  /** A path is clean exactly if it is written with plain segments only. */
  lemma CleanIffPlain(s: string)
    requires Rooted(s)
    ensures IsClean(s) <==> s == "/" || AllPlain(Split(s)[1..])
  {
    var rest := s[1..];
    assert Split(s) == [""] + Split(rest) && Split(s)[1..] == Split(rest);
    JoinOfSplit(rest);
    assert s == "/" + rest;
    if AllPlain(Split(rest)) {
      PathOfSegments(Split(rest));
    }
    PathOfSegments([]);
    assert "/" + Join([]) == "/";
    if IsClean(s) {
      SegmentsArePlain(s);
      assert rest == Join(Segments(s));
      if Segments(s) != [] {
        SplitOfJoin(Segments(s));
      }
    }
  }

  // ----- containment -----

  /** searchRemotePathWithin. */
  predicate Within(root: string, candidate: string) {
    if root == "/" then "/" <= candidate else candidate == root || root + "/" <= candidate
  }

  /** The string test is exactly the segment-prefix test. */
  lemma WithinIffPrefix(root: string, candidate: string)
    requires IsClean(root) && IsClean(candidate)
    ensures Within(root, candidate) <==> Segments(root) <= Segments(candidate)
  {
    hide Clean, Segments, Join, Plain;
    CleanFacts(root);
    CleanFacts(candidate);
    if root == "/" {
      SegmentsOfRoot();
    } else {
      EmptyJoin();
      PrefixOfJoin(Segments(root), Segments(candidate));
    }
  }

  lemma CleanFacts(s: string)
    requires IsClean(s)
    ensures s == "/" + Join(Segments(s)) && AllPlain(Segments(s))
  {
    SegmentsArePlain(s);
  }

  lemma EmptyJoin()
    ensures "/" + Join([]) == "/"
  {
  }

  lemma SegmentsOfRoot()
    ensures Segments("/") == []
  {
    assert "/"[1..] == "";
    assert Split("/") == ["", ""];
  }

  lemma PrefixOfJoin(rs: seq<string>, cs: seq<string>)
    requires AllPlain(rs) && AllPlain(cs) && rs != []
    ensures var root, candidate := "/" + Join(rs), "/" + Join(cs);
      candidate == root || root + "/" <= candidate <==> rs <= cs
  {
    hide Join, Plain;
    var root, candidate := "/" + Join(rs), "/" + Join(cs);
    if candidate == root {
      assert Join(cs) == candidate[1..] == root[1..] == Join(rs);
      JoinInjective(rs, cs);
    } else if root + "/" <= candidate {
      var tail := candidate[|root| + 1..];
      assert candidate == root + "/" + tail;
      assert Join(cs) == candidate[1..] == Join(rs) + "/" + tail;
      PrefixOfString(rs, cs, tail);
    }
    if rs <= cs && |rs| == |cs| {
      assert rs == cs;
    } else if rs <= cs {
      JoinOfConcat(rs, cs[|rs|..]);
      assert cs == rs + cs[|rs|..];
      assert candidate == root + "/" + Join(cs[|rs|..]);
    }
  }

  lemma SplitOfPlain(parts: seq<string>)
    requires AllPlain(parts)
    ensures Split(Join(parts)) == if parts == [] then [""] else parts
  {
    hide Join;
    if parts == [] {
      assert Split("") == [""];
      EmptyJoin();
      assert Join([]) == ("/" + Join([]))[1..] == "";
    } else {
      assert NoSlash(parts) by {
        forall p <- parts ensures '/' !in p {
          assert Plain(p);
        }
      }
      SplitOfJoin(parts);
    }
  }

  lemma JoinInjective(a: seq<string>, b: seq<string>)
    requires AllPlain(a) && AllPlain(b) && a != [] && Join(a) == Join(b)
    ensures a == b
  {
    hide Join;
    SplitOfPlain(a);
    SplitOfPlain(b);
    assert Plain(a[0]);
  }

  lemma PrefixOfString(rs: seq<string>, cs: seq<string>, tail: string)
    requires AllPlain(rs) && AllPlain(cs) && rs != [] && Join(cs) == Join(rs) + "/" + tail
    ensures rs <= cs
  {
    hide Join;
    SplitAtSlash(Join(rs), tail);
    SplitOfPlain(rs);
    SplitOfPlain(cs);
    assert Plain(rs[0]);
  }

  // ----- normalization -----

  /** Backslashes count as slashes. */
  function ForwardSlashes(s: string): (r: string)
    ensures |r| == |s| && forall i :: 0 <= i < |s| ==> r[i] == if s[i] == '\\' then '/' else s[i]
  {
    seq(|s|, i requires 0 <= i < |s| => if s[i] == '\\' then '/' else s[i])
  }

  /** normalizeSearchRemotePath. */
  function NormalizePath(value: string): (r: Option<string>) {
    var trimmed := TrimSpace(ForwardSlashes(value));
    var v := if trimmed == "" then "/" else trimmed;
    if ByteLength(v) > MAX_PATH_LENGTH || '\0' in v || !("/" <= v) then None
    else
      var cleaned := Clean(v);
      if cleaned == "." || !("/" <= cleaned) then None else Some(cleaned)
  }

  /** Every normalized path is clean and absolute. */
  lemma NormalizedIsClean(value: string)
    ensures NormalizePath(value).Some? ==> IsClean(NormalizePath(value).value)
  {
    var trimmed := TrimSpace(ForwardSlashes(value));
    var v := if trimmed == "" then "/" else trimmed;
    if NormalizePath(value).Some? {
      assert v[0] == "/"[0];
      CleanIsClean(v);
    }
  }

  datatype File = File(id: string, name: string, fullPath: string, size: int, isDir: bool, isForbidden: bool)

  /** path.Join of a directory and one more element. */
  function JoinPath(dir: string, element: string): string {
    if dir == "" then (if element == "" then "" else Clean(element)) else Clean(dir + "/" + element)
  }

  /** path.Base. */
  function Base(p: string): string {
    if p == "" then "."
    else
      var parts := Split(StripSlashes(p));
      if StripSlashes(p) == "" then "/" else parts[|parts| - 1]
  }

  function StripSlashes(p: string): string {
    if p != "" && p[|p| - 1] == '/' then StripSlashes(p[..|p| - 1]) else p
  }

  predicate BadSegment(segment: string) {
    segment == "" || segment == "." || segment == ".." || '/' in segment || '\\' in segment || '\0' in segment
  }

  /** The path of a listed entry before it is normalized: absolute as given, or a name below `current`. */
  function ListedPath(current: string, file: File): Option<string> {
    var given := TrimSpace(ForwardSlashes(file.fullPath));
    if "/" <= given then Some(given)
    else
      var segment := if given == "" then TrimSpace(file.name) else given;
      if BadSegment(segment) then None else Some(JoinPath(current, segment))
  }

  predicate GoodName(name: string) {
    name != "." && name != ".." && ByteLength(name) <= MAX_NAME_LENGTH && '/' !in name && '\\' !in name && '\0' !in name
  }

  /** normalizeListedSearchFile: the entry with its path and name normalized, or nothing if it is refused. */
  function NormalizeListed(root: string, current: string, file: File): Option<File> {
    var listed := ListedPath(current, file);
    if listed.None? then None
    else
      var fullPath := NormalizePath(listed.value);
      if fullPath.None? || fullPath.value == current || !Within(root, fullPath.value) then None
      else
        var trimmed := TrimSpace(file.name);
        var name := if trimmed == "" then Base(fullPath.value) else trimmed;
        if !GoodName(name) then None else Some(file.(fullPath := fullPath.value, name := name))
  }

  /** Every accepted entry has a clean path that is not the directory it was found in and whose segments
      start with those of the root. */
  lemma AcceptedIsContained(root: string, current: string, file: File)
    requires IsClean(root) && NormalizeListed(root, current, file).Some?
    ensures var f := NormalizeListed(root, current, file).value;
      && IsClean(f.fullPath) && f.fullPath != current
      && Segments(root) <= Segments(f.fullPath)
      && GoodName(f.name)
      && f == file.(fullPath := f.fullPath, name := f.name)
  {
    NormalizedIsClean(ListedPath(current, file).value);
    WithinIffPrefix(root, NormalizeListed(root, current, file).value.fullPath);
  }

  // ----- entries given by name -----

  lemma {:induction false} ReduceOfConcat(a: seq<string>, b: seq<string>, rooted: bool, done: seq<string>)
    ensures Reduce(a + b, rooted, done) == Reduce(b, rooted, Reduce(a, rooted, done))
  {
    if a == [] {
      assert a + b == b;
    } else {
      var p, rest := a[0], a[1..];
      assert (a + b)[1..] == rest + b;
      ReduceOfConcat(rest, b, rooted,
        if p == "" || p == "." then done
        else if p != ".." then done + [p]
        else if done != [] && done[|done| - 1] != ".." then done[..|done| - 1]
        else if rooted then done
        else done + [p]);
    }
  }

  lemma JoinPathAddsSegment(dir: string, segment: string)
    requires IsClean(dir) && Plain(segment)
    ensures JoinPath(dir, segment) == "/" + Join(Segments(dir) + [segment])
    ensures IsClean(JoinPath(dir, segment)) && Segments(JoinPath(dir, segment)) == Segments(dir) + [segment]
  {
    var whole := dir + "/" + segment;
    SplitAtSlash(dir, segment);
    SplitOfPart(segment);
    ReduceOfConcat(Split(dir), [segment], true, []);
    assert whole[0] == '/';
    assert Segments(whole) == Reduce([segment], true, Segments(dir)) == Segments(dir) + [segment];
    CleanIsClean(whole);
  }

  lemma {:induction false} SplitChars(s: string, c: char, i: nat)
    requires i < |Split(s)| && c in Split(s)[i]
    ensures c in s
  {
    if s != "" {
      var rest := Split(s[1..]);
      if s[0] == '/' {
        assert i > 0;
        SplitChars(s[1..], c, i - 1);
      } else if i > 0 {
        SplitChars(s[1..], c, i);
      } else if c != s[0] {
        assert c in rest[0];
        SplitChars(s[1..], c, 0);
      }
    }
  }

  lemma {:induction false} ReduceKeeps(parts: seq<string>, rooted: bool, done: seq<string>)
    ensures forall p <- Reduce(parts, rooted, done) :: p in parts || p in done
  {
    if parts != [] {
      var p, rest := parts[0], parts[1..];
      if p == "" || p == "." {
        ReduceKeeps(rest, rooted, done);
      } else if p != ".." {
        ReduceKeeps(rest, rooted, done + [p]);
      } else if done != [] && done[|done| - 1] != ".." {
        ReduceKeeps(rest, rooted, done[..|done| - 1]);
      } else if rooted {
        ReduceKeeps(rest, rooted, done);
      } else {
        ReduceKeeps(rest, rooted, done + [p]);
      }
    }
  }

  lemma {:induction false} JoinChars(parts: seq<string>, c: char)
    requires c in Join(parts) && c != '/'
    ensures exists p :: p in parts && c in p
  {
    if |parts| == 1 {
      assert parts[0] in parts;
    } else if |parts| > 1 {
      if c in parts[0] {
        assert parts[0] in parts;
      } else {
        JoinChars(parts[1..], c);
        var p :| p in parts[1..] && c in p;
        assert p in parts;
      }
    }
  }

  /** Cleaning an absolute path brings in no new characters. */
  lemma CleanChars(s: string, c: char)
    requires Rooted(s) && c in Clean(s)
    ensures c in s
  {
    if c == '/' {
      assert s[0] == c;
    } else {
      var segments := Segments(s);
      assert c in Join(segments);
      JoinChars(segments, c);
      var p :| p in segments && c in p;
      ReduceKeeps(Split(s), true, []);
      var i :| 0 <= i < |Split(s)| && Split(s)[i] == p;
      SplitChars(s, c, i);
    }
  }

  /** What every path that the search handles looks like. */
  ghost predicate IsNormal(p: string) {
    IsClean(p) && '\\' !in p && '\0' !in p
  }

  lemma {:induction false} TrimChars(s: string)
    ensures forall c <- TrimLeft(s) :: c in s
    ensures forall c <- TrimRight(s) :: c in s
  {
    if s != "" {
      TrimChars(s[1..]);
      TrimChars(s[..|s| - 1]);
    }
  }

  lemma NormalizedIsNormal(value: string)
    ensures NormalizePath(value).Some? ==> IsNormal(NormalizePath(value).value)
  {
    hide IsSpace, ByteLength, Reduce;
    NormalizedIsClean(value);
    if NormalizePath(value).Some? {
      var forward := ForwardSlashes(value);
      var trimmed := TrimSpace(forward);
      TrimChars(forward);
      TrimChars(TrimLeft(forward));
      assert '\\' !in forward;
      var v := if trimmed == "" then "/" else trimmed;
      assert '\\' !in v && '\0' !in v;
      if '\\' in Clean(v) {
        CleanChars(v, '\\');
      }
      if '\0' in Clean(v) {
        CleanChars(v, '\0');
      }
    }
  }

  predicate GivenByName(file: File) {
    !("/" <= TrimSpace(ForwardSlashes(file.fullPath)))
  }

  /** The segment of an entry that is given by name. */
  function SegmentOf(file: File): string {
    var given := TrimSpace(ForwardSlashes(file.fullPath));
    if given == "" then TrimSpace(file.name) else given
  }

  function NameOf(file: File, segment: string): string {
    if TrimSpace(file.name) == "" then segment else TrimSpace(file.name)
  }

  /** A path in normal form that does not end in white space is left alone. */
  lemma NormalizeOfNormal(p: string)
    requires IsNormal(p) && !IsSpace(p[|p| - 1])
    ensures NormalizePath(p) == if ByteLength(p) > MAX_PATH_LENGTH then None else Some(p)
  {
    hide ByteLength, Clean, TrimSpace;
    assert ForwardSlashes(p) == p;
    assert !IsSpace('/');
    TrimSpaceOfTrimmed(p);
    assert "/" <= p;
  }

  /** An entry given by name is accepted exactly if its segment and name are good and its path is not too
      long, and then it lies exactly one segment below the directory it was found in. */
  lemma NamedEntryIsOneBelow(root: string, current: string, file: File)
    requires IsClean(root) && IsNormal(current) && Within(root, current) && GivenByName(file)
    ensures var segment, r := SegmentOf(file), NormalizeListed(root, current, file);
      && (r.Some? <==> !BadSegment(segment) && ByteLength(JoinPath(current, segment)) <= MAX_PATH_LENGTH
                       && GoodName(NameOf(file, segment)))
      && (r.Some? ==>
            && r.value.fullPath == JoinPath(current, segment) && r.value.name == NameOf(file, segment)
            && Segments(r.value.fullPath) == Segments(current) + [segment])
  {
    var segment := SegmentOf(file);
    TrimSpaceIsTrimmed(ForwardSlashes(file.fullPath));
    TrimSpaceIsTrimmed(file.name);
    assert IsTrimmed(segment);
    if !BadSegment(segment) {
      NamedPath(root, current, segment);
      hide TrimSpace, ByteLength, JoinPath, Within, Segments, IsSpace, NormalizePath;
    } else {
      hide TrimSpace, ByteLength, JoinPath, Within, Segments, IsSpace, NormalizePath;
    }
  }

  lemma NamedPath(root: string, current: string, segment: string)
    requires IsClean(root) && IsNormal(current) && Within(root, current) && !BadSegment(segment) && IsTrimmed(segment)
    ensures var full := JoinPath(current, segment);
      && NormalizePath(full) == (if ByteLength(full) > MAX_PATH_LENGTH then None else Some(full))
      && full != current && Within(root, full) && Segments(full) == Segments(current) + [segment]
      && Base(full) == segment
  {
    var full := JoinPath(current, segment);
    hide ByteLength, IsSpace, Reduce, Within, NormalizePath;
    JoinPathAddsSegment(current, segment);
    assert full == "/" + Join(Segments(current) + [segment]);
    JoinEnds(Segments(current), segment);
    NamedChars(current, segment);
    NormalizeOfNormal(full);
    WithinIffPrefix(root, current);
    WithinIffPrefix(root, full);
    SegmentsArePlain(current);
    BaseOfPath(Segments(current), segment);
  }

  lemma JoinEnds(parts: seq<string>, last: string)
    requires last != ""
    ensures var s := "/" + Join(parts + [last]); s[|s| - 1] == last[|last| - 1]
  {
    if parts != [] {
      JoinOfConcat(parts, [last]);
    } else {
      assert parts + [last] == [last];
    }
  }

  lemma NamedChars(current: string, segment: string)
    requires IsNormal(current) && !BadSegment(segment) && IsClean(JoinPath(current, segment))
    ensures IsNormal(JoinPath(current, segment))
  {
    var whole := current + "/" + segment;
    assert Rooted(whole);
    forall c | c in Clean(whole) ensures c != '\\' && c != '\0' {
      CleanChars(whole, c);
    }
  }

  lemma BaseOfPath(parts: seq<string>, last: string)
    requires AllPlain(parts) && Plain(last)
    ensures Base("/" + Join(parts + [last])) == last
  {
    var whole := parts + [last];
    var p := "/" + Join(whole);
    JoinEnds(parts, last);
    assert last[|last| - 1] in last;
    assert StripSlashes(p) == p;
    assert p[1..] == Join(whole);
    assert Split(p) == [""] + Split(Join(whole));
    SplitOfPlain(whole);
  }

  // ----- normalizing twice -----

  /** The bytes of some segments, each with a slash. */
  function SlashedLength(parts: seq<string>): nat {
    if parts == [] then 0 else ByteLength(parts[0]) + 1 + SlashedLength(parts[1..])
  }

  lemma {:induction false} ByteLengthOfConcat(a: string, b: string)
    ensures ByteLength(a + b) == ByteLength(a) + ByteLength(b)
  {
    if a == "" {
      assert a + b == b;
    } else {
      assert (a + b)[1..] == a[1..] + b;
      ByteLengthOfConcat(a[1..], b);
    }
  }

  lemma {:induction false} LengthOfSplit(s: string)
    ensures SlashedLength(Split(s)) == ByteLength(s) + 1
  {
    if s != "" {
      LengthOfSplit(s[1..]);
      var rest := Split(s[1..]);
      if s[0] == '/' {
        assert Split(s)[1..] == rest;
      } else {
        assert Split(s)[1..] == rest[1..];
        assert ([s[0]] + rest[0])[1..] == rest[0];
      }
    }
  }

  lemma {:induction false} LengthOfJoin(parts: seq<string>)
    ensures ByteLength("/" + Join(parts)) == if parts == [] then 1 else SlashedLength(parts)
  {
    ByteLengthOfConcat("/", Join(parts));
    assert ByteLength("/") == 1 + ByteLength("");
    if |parts| == 1 {
      assert SlashedLength(parts[1..]) == 0;
    } else if |parts| > 1 {
      LengthOfJoin(parts[1..]);
      ByteLengthOfConcat(parts[0], "/" + Join(parts[1..]));
      assert Join(parts) == parts[0] + ("/" + Join(parts[1..]));
      ByteLengthOfConcat("/", Join(parts[1..]));
    }
  }

  lemma {:induction false} SlashedLengthOfConcat(a: seq<string>, b: seq<string>)
    ensures SlashedLength(a + b) == SlashedLength(a) + SlashedLength(b)
  {
    if a == [] {
      assert a + b == b;
    } else {
      assert (a + b)[1..] == a[1..] + b;
      SlashedLengthOfConcat(a[1..], b);
    }
  }

  lemma {:induction false} ReduceShrinks(parts: seq<string>, done: seq<string>)
    ensures SlashedLength(Reduce(parts, true, done)) <= SlashedLength(done) + SlashedLength(parts)
  {
    if parts != [] {
      var p, rest := parts[0], parts[1..];
      if p == "" || p == "." {
        ReduceShrinks(rest, done);
      } else if p != ".." {
        ReduceShrinks(rest, done + [p]);
        SlashedLengthOfConcat(done, [p]);
        assert SlashedLength([p]) == ByteLength(p) + 1 + SlashedLength([]);
      } else if done != [] && done[|done| - 1] != ".." {
        ReduceShrinks(rest, done[..|done| - 1]);
        SlashedLengthOfConcat(done[..|done| - 1], [done[|done| - 1]]);
        assert done == done[..|done| - 1] + [done[|done| - 1]];
      } else {
        ReduceShrinks(rest, done);
      }
    }
  }

  /** Cleaning never makes a path longer. */
  lemma CleanShrinks(s: string)
    requires Rooted(s)
    ensures ByteLength(Clean(s)) <= ByteLength(s)
  {
    hide ByteLength;
    LengthOfJoin(Segments(s));
    assert s == "/" + s[1..];
    ByteLengthOfConcat("/", s[1..]);
    LengthOfSplit(s[1..]);
    ReduceShrinks(Split(s[1..]), []);
    assert Split(s) == [""] + Split(s[1..]) && Split(s)[1..] == Split(s[1..]);
    assert Segments(s) == Reduce(Split(s[1..]), true, []);
  }

  lemma {:induction false} TrimShrinks(s: string)
    ensures ByteLength(TrimRight(s)) <= ByteLength(s)
    ensures s != "" && IsSpace(s[|s| - 1]) ==> ByteLength(TrimRight(s)) < ByteLength(s)
  {
    if s != "" && IsSpace(s[|s| - 1]) {
      var front := s[..|s| - 1];
      TrimShrinks(front);
      ByteLengthOfConcat(front, [s[|s| - 1]]);
      assert s == front + [s[|s| - 1]];
      assert ByteLength([s[|s| - 1]]) >= 1;
    }
  }

  /** Normalizing again changes nothing exactly if cleaning has left no white space at the end. */
  lemma NormalizeTwice(value: string)
    requires NormalizePath(value).Some?
    ensures var p := NormalizePath(value).value;
      NormalizePath(p) == Some(p) <==> !IsSpace(p[|p| - 1])
  {
    var p := NormalizePath(value).value;
    NormalizedIsNormal(value);
    var trimmed := TrimSpace(ForwardSlashes(value));
    var v := if trimmed == "" then "/" else trimmed;
    CleanShrinks(v);
    hide ByteLength, Clean, IsSpace;
    if !IsSpace(p[|p| - 1]) {
      NormalizeOfNormal(p);
    } else if NormalizePath(p) == Some(p) {
      assert ForwardSlashes(p) == p;
      TrimmedTwice(p);
    }
  }

  lemma {:induction false} TrimRightStarts(s: string)
    requires s != "" && !IsSpace(s[0])
    ensures TrimRight(s) != "" && TrimRight(s)[0] == s[0]
  {
    if IsSpace(s[|s| - 1]) {
      TrimRightStarts(s[..|s| - 1]);
    }
  }

  lemma TrimmedTwice(p: string)
    requires IsNormal(p) && IsSpace(p[|p| - 1])
    ensures NormalizePath(p) != Some(p)
  {
    assert ForwardSlashes(p) == p;
    assert TrimLeft(p) == p;
    TrimShrinks(p);
    var trimmed := TrimRight(p);
    assert "/" <= p && p[0] == '/' && !IsSpace('/');
    if NormalizePath(p) == Some(p) {
      TrimRightStarts(p);
      CleanShrinks(trimmed);
    }
  }

  lemma SplitExamples()
    ensures Split("/a /.") == ["", "a ", "."] && Split("/a") == ["", "a"]
  {
    hide Split;
    SplitOfPart("a ");
    SplitOfPart("a");
    SplitOfPart(".");
    SplitOfPart("");
    assert "/a" == "" + "/" + "a";
    SplitAtSlash("", "a");
    assert "/a " == "" + "/" + "a ";
    SplitAtSlash("", "a ");
    assert "/a /." == "/a " + "/" + ".";
    SplitAtSlash("/a ", ".");
  }

  lemma ReduceExample(p: string)
    requires Plain(p)
    ensures Reduce(["", p, "."], true, []) == [p] && Reduce(["", p], true, []) == [p]
  {
    assert ["", p, "."][1..] == [p, "."] && [p, "."][1..] == ["."] && ["", p][1..] == [p];
    assert Reduce(["."], true, [p]) == Reduce([], true, [p]) == [p];
    assert Reduce([p, "."], true, []) == Reduce(["."], true, [] + [p]) == [p];
    assert Reduce([p], true, []) == Reduce([], true, [] + [p]) == [p];
  }

  lemma CleanExamples()
    ensures Clean("/a /.") == "/a " && Clean("/a") == "/a"
  {
    hide Split, Reduce;
    SplitExamples();
    ReduceExample("a ");
    ReduceExample("a");
    assert Join(["a "]) == "a " && Join(["a"]) == "a";
  }

  lemma TrimExamples()
    ensures TrimSpace(ForwardSlashes("/a /.")) == "/a /." && TrimSpace(ForwardSlashes("/a ")) == "/a"
  {
    assert ForwardSlashes("/a /.") == "/a /.";
    assert ForwardSlashes("/a ") == "/a ";
    assert TrimLeft("/a ") == "/a ";
    assert TrimRight("/a ") == TrimRight("/a") == "/a";
  }

  /** A path that normalization changes twice. */
  lemma NotIdempotent()
    ensures NormalizePath("/a /.") == Some("/a ") && NormalizePath("/a ") == Some("/a")
  {
    hide Clean, TrimSpace, ForwardSlashes;
    CleanExamples();
    TrimExamples();
  }
}
