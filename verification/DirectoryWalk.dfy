/** The bounded breadth-first walk over a remote directory tree. */
module DirectoryWalk {
  import opened Prelude
  import opened RemotePath
  import opened RemoteGraph
  import opened RemoteEntries

  /** The program reports the three limits as one error. */
  datatype SearchError = RpcFailed | TooManyEntries | TooManyDirectories | TooDeep

  datatype Queued = Queued(path: string, depth: nat, prefetched: Option<seq<File>>)

  datatype Key = PathKey(path: string) | IdKey(id: string) | FileKey(name: string, size: int, isDir: bool)

  /** searchFileKey. */
  function SearchFileKey(f: File): Key {
    if f.fullPath != "" then PathKey(f.fullPath)
    else if f.id != "" then IdKey(f.id)
    else FileKey(f.name, f.size, f.isDir)
  }

  /** listDirectoryRaw: all items of a directory, unless there are more than allowed. */
  method ListDirectoryRaw(g: Graph, d: string, maxEntries: int)
    returns (r: Result<seq<File>, SearchError>, scanned: nat)
    ensures maxEntries <= 0 ==> r == Err(TooManyEntries) && scanned == 0
    ensures maxEntries > 0 && d !in g.listings ==> r == Err(RpcFailed) && scanned == 0
    ensures maxEntries > 0 && d in g.listings ==>
              var items := Flatten(g.listings[d].replies);
              && scanned == Min(|items|, maxEntries)
              && r == if |items| > maxEntries then Err(TooManyEntries)
                      else if g.listings[d].broken then Err(RpcFailed)
                      else Ok(Present(items))
  {
    scanned := 0;
    if maxEntries <= 0 {
      return Err(TooManyEntries), scanned;
    }
    if d !in g.listings {
      return Err(RpcFailed), scanned;
    }
    var replies := g.listings[d].replies;
    var result: seq<File> := [];
    var i := 0;
    while i < |replies|
      invariant 0 <= i <= |replies|
      invariant scanned == |Flatten(replies[..i])| <= maxEntries
      invariant result == Present(Flatten(replies[..i]))
    {
      FlattenAppend(replies[..i], replies[i]);
      assert replies[..i + 1] == replies[..i] + [replies[i]];
      FlattenPrefix(replies, i + 1);
      var reply := replies[i];
      var j := 0;
      ghost var before := Flatten(replies[..i]);
      assert reply[..0] == [] && before + [] == before;
      while j < |reply|
        invariant 0 <= j <= |reply|
        invariant scanned == |before| + j <= maxEntries
        invariant result == Present(before + reply[..j])
      {
        if scanned == maxEntries {
          return Err(TooManyEntries), scanned;
        }
        scanned := scanned + 1;
        PresentAppend(before + reply[..j], reply[j]);
        assert before + reply[..j] + [reply[j]] == before + reply[..j + 1];
        if reply[j].Some? {
          result := result + [reply[j].value];
        }
        j := j + 1;
      }
      assert reply[..j] == reply;
      i := i + 1;
    }
    assert replies[..i] == replies;
    if g.listings[d].broken {
      return Err(RpcFailed), scanned;
    }
    return Ok(result), scanned;
  }

  // ----- the queue -----

  ghost predicate InQueue(queue: seq<Queued>, d: string, depth: nat) {
    exists j :: 0 <= j < |queue| && queue[j].path == d && queue[j].depth <= depth
  }

  ghost predicate DistinctPaths(queue: seq<Queued>) {
    forall i, j :: 0 <= i < j < |queue| ==> queue[i].path != queue[j].path
  }

  ghost predicate SortedDepths(queue: seq<Queued>) {
    forall i, j :: 0 <= i < j < |queue| ==> queue[i].depth <= queue[j].depth
  }

  /** The queue starts at the root, holds no directory twice, nearer ones first, and each is as far away as a
      chain of listings says. */
  ghost predicate QueueOk(g: Graph, queue: seq<Queued>) {
    && 0 < |queue| <= MAX_DIRECTORIES
    && queue[0] == Queued(g.root, 0, g.prefetched)
    && DistinctPaths(queue) && SortedDepths(queue)
    && (forall j :: 0 <= j < |queue| ==> queue[j].depth <= MAX_DEPTH && ReachableIn(g, queue[j].depth, queue[j].path))
    && (forall j :: 0 < j < |queue| ==> queue[j].prefetched == None)
  }

  /** Everything listed in the directory at `i` is queued, one step further away at most. */
  ghost predicate Expanded(g: Graph, queue: seq<Queued>, i: nat)
    requires i < |queue|
  {
    && Readable(g, queue[i].path)
    && forall b :: Child(g, queue[i].path, b) ==> InQueue(queue, b, queue[i].depth + 1)
  }

  /** The directories before `head` are done, and what is queued is at most one step beyond `head`. */
  ghost predicate Frontier(g: Graph, queue: seq<Queued>, head: nat) {
    && head <= |queue|
    && (forall i: nat :: i < head ==> Expanded(g, queue, i))
    && (head < |queue| ==> queue[|queue| - 1].depth <= queue[head].depth + 1)
  }

  /** A directory no further away than the head of the queue is already in the queue. */
  lemma {:induction false} ReachedEarly(g: Graph, queue: seq<Queued>, head: nat, m: nat, d: string)
    requires QueueOk(g, queue) && Frontier(g, queue, head) && ReachableIn(g, m, d)
    requires head < |queue| ==> m <= queue[head].depth
    ensures InQueue(queue, d, m)
    decreases m
  {
    hide Child;
    if m > 0 {
      var a :| ReachableIn(g, m - 1, a) && Child(g, a, d);
      ReachedEarly(g, queue, head, m - 1, a);
      var i :| 0 <= i < |queue| && queue[i].path == a && queue[i].depth <= m - 1;
      assert i < head;
      assert Expanded(g, queue, i);
      var j :| 0 <= j < |queue| && queue[j].path == d && queue[j].depth <= queue[i].depth + 1;
    } else {
      assert queue[0].path == d;
    }
  }

  /** Queued depths are shortest distances. */
  lemma DepthsAreDistances(g: Graph, queue: seq<Queued>, head: nat, j: nat)
    requires QueueOk(g, queue) && Frontier(g, queue, head) && j < |queue|
    ensures Distance(g, queue[j].path, queue[j].depth)
  {
    hide ReachableIn, Expanded;
    forall m: nat | m < queue[j].depth ensures !ReachableIn(g, m, queue[j].path) {
      if ReachableIn(g, m, queue[j].path) {
        ReachedEarly(g, queue, head, m, queue[j].path);
      }
    }
  }

  /** A directory that is not queued yet, seen from the head, is exactly one step further away. */
  lemma NewIsOneFurther(g: Graph, queue: seq<Queued>, head: nat, b: string)
    requires QueueOk(g, queue) && Frontier(g, queue, head) && head < |queue|
    requires Child(g, queue[head].path, b) && forall j :: 0 <= j < |queue| ==> queue[j].path != b
    ensures Distance(g, b, queue[head].depth + 1)
  {
    hide Child, Expanded;
    assert ReachableIn(g, queue[head].depth + 1, b);
    forall m: nat | m < queue[head].depth + 1 ensures !ReachableIn(g, m, b) {
      if ReachableIn(g, m, b) {
        ReachedEarly(g, queue, head, m, b);
      }
    }
  }

  /** Once the queue is used up it holds exactly the reachable directories. */
  lemma QueueIsReachable(g: Graph, queue: seq<Queued>, d: string)
    requires QueueOk(g, queue) && Frontier(g, queue, |queue|)
    ensures Reachable(g, d) <==> exists j :: 0 <= j < |queue| && queue[j].path == d
  {
    hide ReachableIn, Expanded;
    if Reachable(g, d) {
      var n: nat :| ReachableIn(g, n, d);
      ReachedEarly(g, queue, |queue|, n, d);
    }
  }

  /** Queueing a new directory seen from the head. */
  lemma PushKeeps(g: Graph, queue: seq<Queued>, head: nat, b: string)
    requires QueueOk(g, queue) && Frontier(g, queue, head) && head < |queue| < MAX_DIRECTORIES
    requires Child(g, queue[head].path, b) && forall j :: 0 <= j < |queue| ==> queue[j].path != b
    requires queue[head].depth < MAX_DEPTH
    ensures var queue' := queue + [Queued(b, queue[head].depth + 1, None)];
      QueueOk(g, queue') && Frontier(g, queue', head)
  {
    hide Child, Expanded, ReachableIn, QueueOk, DistinctPaths, SortedDepths;
    var queue' := queue + [Queued(b, queue[head].depth + 1, None)];
    NextIsReachable(g, queue[head].depth, queue[head].path, b) by { QueuedIsReachable(g, queue, head); }
    assert QueueOk(g, queue') by { PushKeepsQueue(g, queue, head, b); }
    forall i: nat | i < head ensures Expanded(g, queue', i) {
      ExpandedGrows(g, queue, queue', i);
    }
  }

  lemma QueuedIsReachable(g: Graph, queue: seq<Queued>, j: nat)
    requires QueueOk(g, queue) && j < |queue|
    ensures ReachableIn(g, queue[j].depth, queue[j].path) && queue[j].depth <= MAX_DEPTH
    ensures j > 0 ==> queue[j].prefetched == None
    ensures j == 0 ==> queue[j] == Queued(g.root, 0, g.prefetched)
  {
    hide ReachableIn;
  }

  lemma NextIsReachable(g: Graph, n: nat, a: string, b: string)
    requires ReachableIn(g, n, a) && Child(g, a, b)
    ensures ReachableIn(g, n + 1, b)
  {
    hide Child;
  }

  lemma PushKeepsQueue(g: Graph, queue: seq<Queued>, head: nat, b: string)
    requires QueueOk(g, queue) && head < |queue| < MAX_DIRECTORIES && queue[head].depth < MAX_DEPTH
    requires queue[|queue| - 1].depth <= queue[head].depth + 1
    requires ReachableIn(g, queue[head].depth + 1, b) && forall j :: 0 <= j < |queue| ==> queue[j].path != b
    ensures QueueOk(g, queue + [Queued(b, queue[head].depth + 1, None)])
  {
    hide ReachableIn;
  }

  lemma ExpandedGrows(g: Graph, queue: seq<Queued>, queue': seq<Queued>, i: nat)
    requires queue <= queue' && i < |queue| && Expanded(g, queue, i)
    ensures Expanded(g, queue', i)
  {
    hide Child, Readable, ReachableIn, InQueue;
    forall c | Child(g, queue'[i].path, c) ensures InQueue(queue', c, queue'[i].depth + 1) {
      QueueGrows(queue, queue', c, queue[i].depth + 1);
    }
  }

  lemma QueueGrows(queue: seq<Queued>, queue': seq<Queued>, d: string, depth: nat)
    requires queue <= queue' && InQueue(queue, d, depth)
    ensures InQueue(queue', d, depth)
  {
    var j :| 0 <= j < |queue| && queue[j].path == d && queue[j].depth <= depth;
    assert queue'[j].path == d;
  }

  // ----- the results -----

  ghost predicate DistinctResults(results: seq<File>) {
    forall i, j :: 0 <= i < j < |results| ==> results[i].fullPath != results[j].fullPath
  }

  /** Every result is a matching entry of a reachable directory, no two have the same path, and `seen` has
      exactly their keys. */
  ghost predicate ResultsOk(g: Graph, q: Query, results: seq<File>, seen: set<Key>) {
    && (forall i :: 0 <= i < |results| ==> Answer(g, q, results[i]) && PathKey(results[i].fullPath) in seen)
    && (forall k :: k in seen ==> exists i :: 0 <= i < |results| && k == PathKey(results[i].fullPath))
    && DistinctResults(results)
  }

  /** The matching entries of a directory among its first `n` have been seen. */
  ghost predicate SeenTo(g: Graph, q: Query, d: string, n: nat, seen: set<Key>)
    requires Readable(g, d) && n <= |Entries(g, d)|
  {
    forall k: nat, f :: k < n && MatchAt(g, q, d, k, f) ==> PathKey(f.fullPath) in seen
  }

  ghost predicate SeenBefore(g: Graph, q: Query, queue: seq<Queued>, head: nat, seen: set<Key>) {
    forall i: nat :: i < head && i < |queue| ==>
      Readable(g, queue[i].path) && SeenTo(g, q, queue[i].path, |Entries(g, queue[i].path)|, seen)
  }

  /** The directories among the first `n` entries have been queued. */
  ghost predicate QueuedTo(g: Graph, queue: seq<Queued>, d: string, depth: nat, n: nat)
    requires Readable(g, d) && n <= |Entries(g, d)|
  {
    forall k: nat, b :: k < n && IsDirAt(g, d, k, b) ==> InQueue(queue, b, depth)
  }

  lemma NewResult(g: Graph, q: Query, d: string, n: nat, k: nat, f: File, results: seq<File>, seen: set<Key>)
    requires ResultsOk(g, q, results, seen) && PathKey(f.fullPath) !in seen
    requires ReachableIn(g, n, d) && Readable(g, d) && k < |Entries(g, d)| && MatchAt(g, q, d, k, f)
    ensures ResultsOk(g, q, results + [f], seen + {PathKey(f.fullPath)})
  {
    hide ReachableIn, MatchAt, Readable, Entries;
    assert Reachable(g, d) && AnswerIn(g, q, d, f);
    var results', seen' := results + [f], seen + {PathKey(f.fullPath)};
    forall x | x in seen' ensures exists i :: 0 <= i < |results'| && x == PathKey(results'[i].fullPath) {
      if x in seen {
        var i :| 0 <= i < |results| && x == PathKey(results[i].fullPath);
        assert results'[i] == results[i];
      } else {
        assert results'[|results|] == f;
      }
    }
    hide Answer;
    assert DistinctResults(results');
  }

  /** What the walk keeps while it is at `head`. */
  ghost predicate WalkOk(g: Graph, q: Query, s: Walk, head: nat) {
    && QueueOk(g, s.queue) && Frontier(g, s.queue, head)
    && s.visited == (set j | 0 <= j < |s.queue| :: s.queue[j].path)
    && ResultsOk(g, q, s.results, s.seen) && SeenBefore(g, q, s.queue, head, s.seen)
  }

  datatype Walk = Walk(queue: seq<Queued>, visited: set<string>, seen: set<Key>, results: seq<File>)

  lemma VisitedSize(queue: seq<Queued>)
    requires DistinctPaths(queue)
    ensures |set j | 0 <= j < |queue| :: queue[j].path| == |queue|
  {
    var paths := seq(|queue|, i requires 0 <= i < |queue| => queue[i].path);
    DistinctCount(paths);
    assert Elements(paths) == set j | 0 <= j < |queue| :: queue[j].path by {
      forall p ensures p in Elements(paths) <==> p in (set j | 0 <= j < |queue| :: queue[j].path) {
        if p in Elements(paths) {
          var i :| 0 <= i < |paths| && paths[i] == p;
          assert queue[i].path == p;
        }
        if p in (set j | 0 <= j < |queue| :: queue[j].path) {
          var i :| 0 <= i < |queue| && queue[i].path == p;
          assert paths[i] == p;
        }
      }
    }
  }

  // ----- the order of the results -----

  function Paths(queue: seq<Queued>): (paths: seq<string>)
    ensures |paths| == |queue| && forall j :: 0 <= j < |queue| ==> paths[j] == queue[j].path
  {
    seq(|queue|, j requires 0 <= j < |queue| => queue[j].path)
  }

  /** The matching entries among the first `n` of a directory, in the order listed. */
  ghost function Matching(g: Graph, q: Query, d: string, n: nat): seq<File>
    requires Readable(g, d) && n <= |Entries(g, d)|
  {
    if n == 0 then []
    else
      var e := Entry(g, d, n - 1);
      Matching(g, q, d, n - 1) + if e.Some? && Matches(q, e.value.name) then [e.value] else []
  }

  ghost predicate HasPath(results: seq<File>, path: string) {
    exists i :: 0 <= i < |results| && results[i].fullPath == path
  }

  /** Those of `files` whose path is new are added one by one. */
  ghost function AddNew(results: seq<File>, files: seq<File>): seq<File> {
    if files == [] then results
    else
      var front, last := AddNew(results, files[..|files| - 1]), files[|files| - 1];
      if HasPath(front, last.fullPath) then front else front + [last]
  }

  /** The first match for every path, over the listings of some directories in order. */
  ghost function FirstMatches(g: Graph, q: Query, dirs: seq<string>): seq<File> {
    if dirs == [] then []
    else
      var front, last := FirstMatches(g, q, dirs[..|dirs| - 1]), dirs[|dirs| - 1];
      if Readable(g, last) then AddNew(front, Matching(g, q, last, |Entries(g, last)|)) else front
  }

  lemma {:induction false} AddNewGrows(g: Graph, q: Query, d: string, k: nat, n: nat, results: seq<File>)
    requires Readable(g, d) && k <= n <= |Entries(g, d)|
    ensures AddNew(results, Matching(g, q, d, k)) <= AddNew(results, Matching(g, q, d, n))
    decreases n
  {
    hide Readable, Entries, Entry, HasPath, AddNew, Matching, Contains;
    if k < n {
      AddNewGrows(g, q, d, k, n - 1, results);
      MatchingStep(g, q, d, n - 1, results);
    }
  }

  /** One more entry adds itself if it matches and its path is new. */
  lemma MatchingStep(g: Graph, q: Query, d: string, k: nat, results: seq<File>)
    requires Readable(g, d) && k < |Entries(g, d)|
    ensures var front, e := AddNew(results, Matching(g, q, d, k)), Entry(g, d, k);
      AddNew(results, Matching(g, q, d, k + 1))
      == if e.Some? && Matches(q, e.value.name) && !HasPath(front, e.value.fullPath) then front + [e.value] else front
  {
    hide Readable, Entries, Entry, HasPath, Contains;
    var e := Entry(g, d, k);
    if e.Some? && Matches(q, e.value.name) {
      assert Matching(g, q, d, k + 1)[..|Matching(g, q, d, k)|] == Matching(g, q, d, k);
    } else {
      assert Matching(g, q, d, k + 1) == Matching(g, q, d, k);
    }
  }

  lemma FirstMatchesStep(g: Graph, q: Query, queue: seq<Queued>, head: nat)
    requires head < |queue| && Readable(g, queue[head].path)
    ensures var d := queue[head].path;
      FirstMatches(g, q, Paths(queue)[..head + 1])
      == AddNew(FirstMatches(g, q, Paths(queue)[..head]), Matching(g, q, d, |Entries(g, d)|))
  {
    assert Paths(queue)[..head + 1][..head] == Paths(queue)[..head];
  }

  /** Being seen and being a result are the same. */
  lemma SeenIsResult(g: Graph, q: Query, results: seq<File>, seen: set<Key>, path: string)
    requires ResultsOk(g, q, results, seen)
    ensures PathKey(path) in seen <==> HasPath(results, path)
  {
    hide Answer;
  }

  // ----- the walk -----

  datatype Stop = GoOn | Full | Refused(error: SearchError)

  predicate NotFull(limit: nat, results: seq<File>) {
    limit > 0 ==> |results| < limit
  }

  /** More distinct directories can be reached than the walk may visit. */
  ghost predicate ManyDirectories(g: Graph) {
    exists ds: set<string> :: |ds| == MAX_DIRECTORIES + 1 && forall d <- ds :: Reachable(g, d)
  }

  ghost predicate TooFar(g: Graph) {
    exists d, n: nat :: Distance(g, d, n) && n == MAX_DEPTH + 1
  }

  /** The entry under consideration. */
  ghost predicate At(g: Graph, queue: seq<Queued>, head: nat, k: nat, f: File) {
    && head < |queue| && Readable(g, queue[head].path) && k < |Entries(g, queue[head].path)|
    && Entry(g, queue[head].path, k) == Some(f)
  }

  /** First half of the loop body: a match that has not been seen becomes a result. */
  method NoteMatch(g: Graph, q: Query, limit: nat, ghost head: nat, ghost k: nat, f: File, s: Walk,
                   ghost before: seq<File>)
    returns (s': Walk, full: bool)
    requires WalkOk(g, q, s, head) && At(g, s.queue, head, k, f) && NotFull(limit, s.results)
    requires SeenTo(g, q, s.queue[head].path, k, s.seen)
    requires s.results == AddNew(before, Matching(g, q, s.queue[head].path, k))
    ensures s'.results == AddNew(before, Matching(g, q, s.queue[head].path, k + 1))
    ensures s' == s.(seen := s'.seen, results := s'.results)
    ensures ResultsOk(g, q, s'.results, s'.seen)
    ensures full ==> limit > 0 && |s'.results| == limit
    ensures !full ==> NotFull(limit, s'.results) && WalkOk(g, q, s', head)
    ensures !full ==> SeenTo(g, q, s.queue[head].path, k + 1, s'.seen)
  {
    hide QueueOk, Frontier, ResultsOk, Entry, Entries, Readable, Contains, ReachableIn, SeenTo, SeenBefore, AddNew,
         Matching, HasPath;
    s', full := s, false;
    ghost var d := s.queue[head].path;
    EntryHasPath(g, d, k);
    MatchingStep(g, q, d, k, before);
    SeenIsResult(g, q, s.results, s.seen, f.fullPath);
    var key := SearchFileKey(f);
    if Matches(q, f.name) && key !in s.seen {
      QueuedIsReachable(g, s.queue, head);
      NewResult(g, q, d, s.queue[head].depth, k, f, s.results, s.seen);
      s' := s.(seen := s.seen + {key}, results := s.results + [f]);
      full := |s'.results| == limit;
    }
    SeenStep(g, q, d, k, f, s.seen, s'.seen);
    SeenBeforeGrows(g, q, s.queue, head, s.seen, s'.seen);
  }

  lemma SeenStep(g: Graph, q: Query, d: string, k: nat, f: File, seen: set<Key>, seen': set<Key>)
    requires Readable(g, d) && k < |Entries(g, d)| && Entry(g, d, k) == Some(f) && SeenTo(g, q, d, k, seen)
    requires seen <= seen' && (Matches(q, f.name) ==> PathKey(f.fullPath) in seen')
    ensures SeenTo(g, q, d, k + 1, seen')
  {
    hide Entry, Entries, Readable, Contains;
  }

  lemma SeenBeforeGrows(g: Graph, q: Query, queue: seq<Queued>, head: nat, seen: set<Key>, seen': set<Key>)
    requires SeenBefore(g, q, queue, head, seen) && seen <= seen'
    ensures SeenBefore(g, q, queue, head, seen')
  {
    hide Entry, Entries, Readable, Contains;
  }

  /** Second half of the loop body: a directory that has not been visited is queued, within the limits. */
  method VisitDirectory(g: Graph, ghost q: Query, head: nat, ghost k: nat, f: File, s: Walk)
    returns (s': Walk, stop: Stop)
    requires WalkOk(g, q, s, head) && At(g, s.queue, head, k, f)
    requires QueuedTo(g, s.queue, s.queue[head].path, s.queue[head].depth + 1, k)
    ensures s' == s.(queue := s'.queue, visited := s'.visited) && s.queue <= s'.queue
    ensures stop.GoOn? ==> WalkOk(g, q, s', head)
    ensures stop.GoOn? ==> QueuedTo(g, s'.queue, s.queue[head].path, s.queue[head].depth + 1, k + 1)
    ensures stop.Refused? ==>
              (stop.error == TooDeep && TooFar(g)) || (stop.error == TooManyDirectories && ManyDirectories(g))
    ensures !stop.Full?
  {
    hide QueueOk, Frontier, ResultsOk, Entry, Entries, Readable, ReachableIn, Distance, SeenBefore, QueuedTo, InQueue;
    s', stop := s, GoOn;
    ghost var d := s.queue[head].path;
    if !f.isDir || f.fullPath in s.visited {
      AlreadyQueued(g, s.queue, head, k, f);
      return;
    }
    assert Child(g, d, f.fullPath) by { SeenChild(g, d, k, f); }
    if s.queue[head].depth + 1 > MAX_DEPTH {
      AtDeepest(g, s.queue, head, f.fullPath);
      return s, Refused(TooDeep);
    }
    if |s.visited| >= MAX_DIRECTORIES {
      OneTooMany(g, s.queue, head, f.fullPath);
      return s, Refused(TooManyDirectories);
    }
    QueueSize(g, s.queue);
    PushKeeps(g, s.queue, head, f.fullPath);
    s' := s.(visited := s.visited + {f.fullPath},
             queue := s.queue + [Queued(f.fullPath, s.queue[head].depth + 1, None)]);
    VisitedGrows(s.queue, s'.queue[|s.queue|]);
    SeenBeforeKept(g, q, s.queue, s'.queue, head, s.seen);
    QueuedStep(g, s.queue, s'.queue, head, k, f);
  }

  lemma SeenChild(g: Graph, d: string, k: nat, f: File)
    requires Readable(g, d) && k < |Entries(g, d)| && Entry(g, d, k) == Some(f) && f.isDir
    ensures Child(g, d, f.fullPath)
  {
    hide Entry, Entries, Readable;
    assert IsDirAt(g, d, k, f.fullPath);
  }

  lemma AlreadyQueued(g: Graph, queue: seq<Queued>, head: nat, k: nat, f: File)
    requires QueueOk(g, queue) && Frontier(g, queue, head) && At(g, queue, head, k, f)
    requires f.isDir ==> exists j :: 0 <= j < |queue| && queue[j].path == f.fullPath
    requires QueuedTo(g, queue, queue[head].path, queue[head].depth + 1, k)
    ensures QueuedTo(g, queue, queue[head].path, queue[head].depth + 1, k + 1)
  {
    hide Entry, Entries, Readable, ReachableIn, Expanded;
    if f.isDir {
      var j :| 0 <= j < |queue| && queue[j].path == f.fullPath;
      assert queue[j].depth <= queue[|queue| - 1].depth;
      assert InQueue(queue, f.fullPath, queue[head].depth + 1);
    }
  }

  lemma AtDeepest(g: Graph, queue: seq<Queued>, head: nat, b: string)
    requires QueueOk(g, queue) && Frontier(g, queue, head) && head < |queue| && queue[head].depth + 1 > MAX_DEPTH
    requires Child(g, queue[head].path, b) && forall j :: 0 <= j < |queue| ==> queue[j].path != b
    ensures TooFar(g)
  {
    hide Distance, Child, Frontier;
    assert queue[head].depth == MAX_DEPTH by { QueuedIsReachable(g, queue, head); }
    NewIsOneFurther(g, queue, head, b);
  }

  lemma QueueSize(g: Graph, queue: seq<Queued>)
    requires QueueOk(g, queue)
    ensures |set j | 0 <= j < |queue| :: queue[j].path| == |queue| <= MAX_DIRECTORIES
  {
    hide ReachableIn;
    VisitedSize(queue);
  }

  lemma OneTooMany(g: Graph, queue: seq<Queued>, head: nat, b: string)
    requires QueueOk(g, queue) && head < |queue|
    requires |set j | 0 <= j < |queue| :: queue[j].path| >= MAX_DIRECTORIES
    requires Child(g, queue[head].path, b) && forall j :: 0 <= j < |queue| ==> queue[j].path != b
    ensures ManyDirectories(g)
  {
    hide Child, ReachableIn;
    QueueSize(g, queue);
    var paths := set j | 0 <= j < |queue| :: queue[j].path;
    NextIsReachable(g, queue[head].depth, queue[head].path, b);
    assert Reachable(g, b);
    forall d <- paths ensures Reachable(g, d) {
      var j :| 0 <= j < |queue| && queue[j].path == d;
      assert ReachableIn(g, queue[j].depth, d);
    }
    assert |paths + {b}| == MAX_DIRECTORIES + 1;
  }

  lemma VisitedGrows(queue: seq<Queued>, last: Queued)
    ensures (set j | 0 <= j < |queue + [last]| :: (queue + [last])[j].path)
            == (set j | 0 <= j < |queue| :: queue[j].path) + {last.path}
  {
    var queue' := queue + [last];
    assert queue'[|queue|] == last;
    assert forall j | 0 <= j < |queue| :: queue'[j].path == queue[j].path;
  }

  lemma SeenBeforeKept(g: Graph, q: Query, queue: seq<Queued>, queue': seq<Queued>, head: nat, seen: set<Key>)
    requires SeenBefore(g, q, queue, head, seen) && queue <= queue' && head < |queue|
    ensures SeenBefore(g, q, queue', head, seen)
  {
    hide Entry, Entries, Readable, SeenTo;
  }

  lemma QueuedStep(g: Graph, queue: seq<Queued>, queue': seq<Queued>, head: nat, k: nat, f: File)
    requires At(g, queue, head, k, f) && f.isDir
    requires QueuedTo(g, queue, queue[head].path, queue[head].depth + 1, k)
    requires queue' == queue + [Queued(f.fullPath, queue[head].depth + 1, None)]
    ensures QueuedTo(g, queue', queue[head].path, queue[head].depth + 1, k + 1)
  {
    hide Entry, Entries, Readable;
    var d, depth := queue[head].path, queue[head].depth + 1;
    assert queue'[|queue|].path == f.fullPath;
    assert InQueue(queue', f.fullPath, depth);
    forall n: nat, b | n < k + 1 && IsDirAt(g, d, n, b) ensures InQueue(queue', b, depth) {
      if n < k {
        QueueGrows(queue, queue', b, depth);
      }
    }
  }

  /** The loop over the entries of the directory at `head`. */
  method ProcessEntries(g: Graph, q: Query, limit: nat, head: nat, entries: seq<File>, s0: Walk)
    returns (s: Walk, stop: Stop)
    requires WalkOk(g, q, s0, head) && head < |s0.queue| && NotFull(limit, s0.results)
    requires Readable(g, s0.queue[head].path) && entries == Entries(g, s0.queue[head].path)
    ensures s0.queue <= s.queue
    ensures stop.GoOn? ==> WalkOk(g, q, s, head + 1) && NotFull(limit, s.results)
    ensures stop.GoOn? ==> s.results == AddNew(s0.results, Matching(g, q, s0.queue[head].path, |entries|))
    ensures stop.Full? ==> s.results <= AddNew(s0.results, Matching(g, q, s0.queue[head].path, |entries|))
    ensures stop.Full? ==> limit > 0 && |s.results| == limit && ResultsOk(g, q, s.results, s.seen)
    ensures stop.Refused? ==>
              (stop.error == TooDeep && TooFar(g)) || (stop.error == TooManyDirectories && ManyDirectories(g))
  {
    hide QueueOk, Frontier, ResultsOk, Readable, Entries, SeenBefore, SeenTo, QueuedTo, NormalizeListed, NotFull,
         TooFar,
         ManyDirectories, ReachableIn, AddNew, Matching;
    s := s0;
    ghost var d, depth := s0.queue[head].path, s0.queue[head].depth + 1;
    NothingYet(g, q, s.queue, d, depth, s.seen, s.results);
    var k := 0;
    while k < |entries|
      invariant 0 <= k <= |entries| && s0.queue <= s.queue
      invariant WalkOk(g, q, s, head) && NotFull(limit, s.results)
      invariant SeenTo(g, q, d, k, s.seen) && QueuedTo(g, s.queue, d, depth, k)
      invariant s.results == AddNew(s0.results, Matching(g, q, d, k))
    {
      var normalized := NormalizeListed(g.root, s.queue[head].path, entries[k]);
      if normalized.None? || normalized.value.isForbidden {
        SkipEntry(g, q, s.queue, d, depth, k, s.seen);
        MatchingStep(g, q, d, k, s0.results);
      } else {
        var f := normalized.value;
        var full;
        s, full := NoteMatch(g, q, limit, head, k, f, s, s0.results);
        if full {
          AddNewGrows(g, q, d, k + 1, |entries|, s0.results);
          return s, Full;
        }
        s, stop := VisitDirectory(g, q, head, k, f, s);
        if stop.Refused? {
          return;
        }
      }
      k := k + 1;
    }
    NextHead(g, q, s, head);
    stop := GoOn;
  }

  lemma NothingYet(g: Graph, q: Query, queue: seq<Queued>, d: string, depth: nat, seen: set<Key>, results: seq<File>)
    requires Readable(g, d)
    ensures SeenTo(g, q, d, 0, seen) && QueuedTo(g, queue, d, depth, 0)
    ensures AddNew(results, Matching(g, q, d, 0)) == results
  {
  }

  lemma SkipEntry(g: Graph, q: Query, queue: seq<Queued>, d: string, depth: nat, k: nat, seen: set<Key>)
    requires Readable(g, d) && k < |Entries(g, d)| && Entry(g, d, k).None?
    requires SeenTo(g, q, d, k, seen) && QueuedTo(g, queue, d, depth, k)
    ensures SeenTo(g, q, d, k + 1, seen) && QueuedTo(g, queue, d, depth, k + 1)
  {
    hide Entry, Entries, Readable;
  }

  lemma NextHead(g: Graph, q: Query, s: Walk, head: nat)
    requires WalkOk(g, q, s, head) && head < |s.queue| && Readable(g, s.queue[head].path)
    requires SeenTo(g, q, s.queue[head].path, |Entries(g, s.queue[head].path)|, s.seen)
    requires QueuedTo(g, s.queue, s.queue[head].path, s.queue[head].depth + 1, |Entries(g, s.queue[head].path)|)
    ensures WalkOk(g, q, s, head + 1)
  {
    hide ResultsOk, Entries, Entry, Readable, ReachableIn, SeenTo;
    forall b | Child(g, s.queue[head].path, b) ensures InQueue(s.queue, b, s.queue[head].depth + 1) {
      var k: nat :| k < |Entries(g, s.queue[head].path)| && IsDirAt(g, s.queue[head].path, k, b);
    }
    hide QueuedTo, IsDirAt, Child, InQueue;
    assert Expanded(g, s.queue, head);
  }

  /** What counts as received before the walk starts. */
  function BaseCount(g: Graph, rootEntriesScanned: int): (count: nat)
    ensures count >= rootEntriesScanned && (g.prefetched.Some? ==> count >= |g.prefetched.value|)
  {
    var listed := if g.prefetched.Some? then |g.prefetched.value| else 0;
    if rootEntriesScanned < listed then listed else rootEntriesScanned
  }

  /** Directories that can all be reached hold more entries than may be received; or as many, and there is
      one directory more. */
  ghost predicate ManyEntries(g: Graph, base: int) {
    || base > MAX_ENTRIES
    || exists dirs, d ::
         && NoDuplicates(dirs + [d]) && (forall x <- dirs + [d] :: Reachable(g, x)) && !Prefetched(g, d)
         && (base + TotalItems(g, dirs) == MAX_ENTRIES || base + TotalItems(g, dirs) + ItemCount(g, d) > MAX_ENTRIES)
  }

  ghost predicate Unreadable(g: Graph) {
    exists d :: Reachable(g, d) && !Readable(g, d)
  }

  /** Everything an error can mean. */
  ghost predicate Justified(g: Graph, base: int, e: SearchError) {
    match e
    case RpcFailed => Unreadable(g)
    case TooManyEntries => ManyEntries(g, base)
    case TooManyDirectories => ManyDirectories(g)
    case TooDeep => TooFar(g)
  }

  /** Results that are complete: one for the path of every answer. */
  ghost predicate Complete(g: Graph, q: Query, results: seq<File>) {
    forall f :: Answer(g, q, f) ==> exists i :: 0 <= i < |results| && results[i].fullPath == f.fullPath
  }

  ghost predicate Sound(g: Graph, q: Query, results: seq<File>) {
    (forall f <- results :: Answer(g, q, f)) && DistinctResults(results)
  }

  /** searchFilesByWalking. The ghost results tell which directories were queued and how many were read. */
  method SearchFilesByWalking(g: Graph, rootEntriesScanned: int, q: Query, limit: nat)
    returns (r: Result<seq<File>, SearchError>, ghost queue: seq<Queued>, ghost read: nat)
    ensures r.Err? ==> Justified(g, BaseCount(g, rootEntriesScanned), r.error)
    ensures r.Ok? ==> Sound(g, q, r.value) && (limit > 0 ==> |r.value| <= limit)
    ensures r.Ok? ==> read <= |queue| && r.value <= FirstMatches(g, q, Paths(queue)[..read])
    ensures r.Ok? && NotFull(limit, r.value) ==> read == |queue| && r.value == FirstMatches(g, q, Paths(queue))
    ensures r.Ok? && NotFull(limit, r.value) ==> Complete(g, q, r.value) && Frontier(g, queue, |queue|)
    ensures r.Ok? && IsNormal(g.root) ==> FindsOnly(g, q, r.value)
    ensures r.Ok? && IsNormal(g.root) && (limit == 0 || |r.value| < limit) ==> FindsAll(g, q, r.value)
    ensures queue != [] ==> QueueOk(g, queue)
    ensures forall j :: 0 <= j < |queue| ==> Distance(g, queue[j].path, queue[j].depth)
    ensures r.Ok? ==> queue != []
    ensures read <= |queue|
    ensures read > 0 ==> BaseCount(g, rootEntriesScanned) + TotalItems(g, Paths(queue)[..read]) <= MAX_ENTRIES
  {
    hide QueueOk, Frontier, ResultsOk, Readable, Entries, SeenBefore, NotFull, TooFar, ManyDirectories, ManyEntries,
         Reachable, ReachableIn, Distance, Complete, Sound, Unreadable, TotalItems, ItemCount, FirstMatches, AddNew,
         Matching, FindsOnly, FindsAll, IsNormal;
    var scanned := BaseCount(g, rootEntriesScanned);
    ghost var base := scanned;
    queue, read := [], 0;
    if scanned > MAX_ENTRIES {
      TooManyAtOnce(g, base);
      return Err(TooManyEntries), queue, read;
    }
    var s := Walk([Queued(g.root, 0, g.prefetched)], {g.root}, {}, []);
    StartOk(g, q, limit);
    var head := 0;
    while head < |s.queue|
      invariant 0 <= head <= |s.queue|
      invariant WalkOk(g, q, s, head) && NotFull(limit, s.results)
      invariant scanned == base + TotalItems(g, Paths(s.queue)[..head]) <= MAX_ENTRIES
      invariant s.results == FirstMatches(g, q, Paths(s.queue)[..head])
      decreases MAX_DIRECTORIES - head
    {
      QueueSize(g, s.queue);
      QueuedIsReachable(g, s.queue, head);
      AllDistances(g, s.queue, head);
      queue, read := s.queue, head;
      var current := s.queue[head];
      PathsStep(g, s.queue, head);
      HeadCount(g, s.queue, head);
      var entries;
      if current.prefetched.Some? {
        entries := current.prefetched.value;
      } else {
        var remaining := MAX_ENTRIES - scanned;
        if remaining <= 0 {
          EntriesRunOut(g, s.queue, head, base);
          return Err(TooManyEntries), queue, read;
        }
        var listed, count := ListDirectoryRaw(g, current.path, remaining);
        if listed.Err? {
          ListingRefused(g, s.queue, head, base, listed.error);
          return Err(listed.error), queue, read;
        }
        scanned := scanned + count;
        entries := listed.value;
      }
      CurrentEntries(g, s.queue, head, entries);
      FirstMatchesStep(g, q, s.queue, head);
      ghost var before := s.queue;
      var stop;
      s, stop := ProcessEntries(g, q, limit, head, entries, s);
      if stop.Full? {
        FullIsSound(g, q, limit, s.results, s.seen);
        WantedAreFound(g, q, s.results);
        FullIsFull(limit, s.results);
        read := head + 1;
        return Ok(s.results), queue, read;
      }
      if stop.Refused? {
        read := head + 1;
        return Err(stop.error), queue, read;
      }
      PathsKept(before, s.queue, head + 1);
      head := head + 1;
    }
    AllDistances(g, s.queue, head);
    FinishedIsComplete(g, q, s);
    WantedAreFound(g, q, s.results);
    FinishedWithin(limit, s.results);
    assert Paths(s.queue)[..head] == Paths(s.queue);
    return Ok(s.results), s.queue, head;
  }

  lemma TooManyAtOnce(g: Graph, base: int)
    requires base > MAX_ENTRIES
    ensures ManyEntries(g, base)
  {
  }

  lemma StartOk(g: Graph, q: Query, limit: nat)
    ensures var s := Walk([Queued(g.root, 0, g.prefetched)], {g.root}, {}, []);
      WalkOk(g, q, s, 0) && NotFull(limit, s.results) && TotalItems(g, Paths(s.queue)[..0]) == 0
      && FirstMatches(g, q, Paths(s.queue)[..0]) == []
  {
  }

  lemma AllDistances(g: Graph, queue: seq<Queued>, head: nat)
    requires QueueOk(g, queue) && Frontier(g, queue, head)
    ensures queue != [] && forall j :: 0 <= j < |queue| ==> Distance(g, queue[j].path, queue[j].depth)
  {
    assert queue != [];
    hide QueueOk, Frontier, Distance;
    forall j | 0 <= j < |queue| ensures Distance(g, queue[j].path, queue[j].depth) {
      DepthsAreDistances(g, queue, head, j);
    }
  }

  lemma PathsStep(g: Graph, queue: seq<Queued>, head: nat)
    requires head < |queue|
    ensures TotalItems(g, Paths(queue)[..head + 1])
            == TotalItems(g, Paths(queue)[..head]) + ItemCount(g, queue[head].path)
  {
    assert Paths(queue)[..head + 1][..head] == Paths(queue)[..head];
  }

  lemma HeadCount(g: Graph, queue: seq<Queued>, head: nat)
    requires QueueOk(g, queue) && head < |queue|
    ensures var d := queue[head].path;
      if queue[head].prefetched.Some? then ItemCount(g, d) == 0
      else d in g.listings ==> ItemCount(g, d) == |Flatten(g.listings[d].replies)|
  {
    hide ReachableIn, Flatten;
  }

  lemma PathsKept(queue: seq<Queued>, queue': seq<Queued>, n: nat)
    requires queue <= queue' && n <= |queue|
    ensures Paths(queue')[..n] == Paths(queue)[..n]
  {
  }

  /** The directories read so far and the current one witness that the entries run out. */
  lemma EntriesRunOut(g: Graph, queue: seq<Queued>, head: nat, base: int)
    requires QueueOk(g, queue) && head < |queue| && queue[head].prefetched.None?
    requires var total := base + TotalItems(g, Paths(queue)[..head]);
      total == MAX_ENTRIES || total + ItemCount(g, queue[head].path) > MAX_ENTRIES
    ensures ManyEntries(g, base)
  {
    hide ReachableIn;
    var dirs, d := Paths(queue)[..head], queue[head].path;
    forall x <- dirs + [d] ensures Reachable(g, x) {
      var j :| 0 <= j <= head && queue[j].path == x;
      assert ReachableIn(g, queue[j].depth, x);
    }
    assert NoDuplicates(dirs + [d]);
    assert !Prefetched(g, d);
  }

  lemma ListingRefused(g: Graph, queue: seq<Queued>, head: nat, base: int, e: SearchError)
    requires QueueOk(g, queue) && head < |queue| && queue[head].prefetched.None?
    requires e == TooManyEntries ==>
               && queue[head].path in g.listings
               && base + TotalItems(g, Paths(queue)[..head]) + |Flatten(g.listings[queue[head].path].replies)|
                  > MAX_ENTRIES
    requires e == RpcFailed ==> queue[head].path !in g.listings || g.listings[queue[head].path].broken
    requires e.TooManyEntries? || e.RpcFailed?
    ensures Justified(g, base, e)
  {
    assert !Prefetched(g, queue[head].path) by { hide ReachableIn; }
    if e == TooManyEntries {
      hide QueueOk, ManyEntries;
      EntriesRunOut(g, queue, head, base);
    } else {
      hide ReachableIn, ManyEntries;
      assert ReachableIn(g, queue[head].depth, queue[head].path);
      assert Reachable(g, queue[head].path) && !Readable(g, queue[head].path);
    }
  }

  lemma CurrentEntries(g: Graph, queue: seq<Queued>, head: nat, entries: seq<File>)
    requires QueueOk(g, queue) && head < |queue|
    requires if queue[head].prefetched.Some? then entries == queue[head].prefetched.value
             else queue[head].path in g.listings && !g.listings[queue[head].path].broken
                  && entries == Present(Flatten(g.listings[queue[head].path].replies))
    ensures Readable(g, queue[head].path) && entries == Entries(g, queue[head].path)
  {
    hide ReachableIn;
  }

  lemma FullIsSound(g: Graph, q: Query, limit: nat, results: seq<File>, seen: set<Key>)
    requires ResultsOk(g, q, results, seen) && limit > 0 && |results| == limit
    ensures Sound(g, q, results) && !NotFull(limit, results)
  {
    hide Answer;
  }

  lemma FullIsFull(limit: nat, results: seq<File>)
    requires !NotFull(limit, results)
    ensures limit > 0 && |results| >= limit
  {
  }

  /** What the answers are, told on the listings as they were received. */
  lemma WantedAreFound(g: Graph, q: Query, results: seq<File>)
    ensures IsNormal(g.root) && Sound(g, q, results) ==> FindsOnly(g, q, results)
    ensures IsNormal(g.root) && Complete(g, q, results) ==> FindsAll(g, q, results)
  {
    hide IsNormal, Wanted, Answer, Reachable;
    if IsNormal(g.root) {
      forall f | Answer(g, q, f) ensures exists d, k: nat :: Reachable(g, d) && Wanted(g, q, d, k, f) {
        AnswerIff(g, q, f);
      }
      forall d, k: nat, f | Reachable(g, d) && Wanted(g, q, d, k, f) ensures Answer(g, q, f) {
        AnswerIff(g, q, f);
      }
    }
  }

  lemma FinishedWithin(limit: nat, results: seq<File>)
    requires NotFull(limit, results)
    ensures limit > 0 ==> |results| <= limit
  {
  }

  lemma FinishedIsComplete(g: Graph, q: Query, s: Walk)
    requires WalkOk(g, q, s, |s.queue|)
    ensures Sound(g, q, s.results) && Complete(g, q, s.results)
  {
    hide QueueOk, Frontier, Entries, Entry, Readable, Reachable, MatchAt;
    forall f | Answer(g, q, f) ensures exists i :: 0 <= i < |s.results| && s.results[i].fullPath == f.fullPath {
      var d :| Reachable(g, d) && AnswerIn(g, q, d, f);
      QueueIsReachable(g, s.queue, d);
      var j :| 0 <= j < |s.queue| && s.queue[j].path == d;
      var k: nat :| k < |Entries(g, d)| && MatchAt(g, q, d, k, f);
      assert PathKey(f.fullPath) in s.seen;
    }
  }

  /** A graph within all the limits is searched to the end, unless the results fill up first; and only such a
      graph is: a complete answer means that every reachable directory was read, none is too far away, and there
      are not too many. */
  lemma CompleteMeansWithin(g: Graph, queue: seq<Queued>)
    requires QueueOk(g, queue) && Frontier(g, queue, |queue|)
    ensures !Unreadable(g) && !TooFar(g) && !ManyDirectories(g)
    ensures forall d :: Reachable(g, d) <==> d in Paths(queue)
  {
    hide ReachableIn, Child;
    forall d ensures Reachable(g, d) <==> d in Paths(queue) {
      QueueIsReachable(g, queue, d);
    }
    forall d | Reachable(g, d) ensures Readable(g, d) {
      var j :| 0 <= j < |queue| && queue[j].path == d;
      assert Expanded(g, queue, j);
    }
    NoneTooFar(g, queue);
    NotMany(g, queue);
  }

  lemma NoneTooFar(g: Graph, queue: seq<Queued>)
    requires QueueOk(g, queue) && Frontier(g, queue, |queue|)
    ensures !TooFar(g)
  {
    hide ReachableIn, Expanded;
    forall d, n: nat | Distance(g, d, n) ensures n <= MAX_DEPTH {
      assert Reachable(g, d);
      QueueIsReachable(g, queue, d);
      var j :| 0 <= j < |queue| && queue[j].path == d;
      assert ReachableIn(g, queue[j].depth, d) && queue[j].depth <= MAX_DEPTH;
    }
  }

  lemma NotMany(g: Graph, queue: seq<Queued>)
    requires QueueOk(g, queue) && Frontier(g, queue, |queue|)
    ensures !ManyDirectories(g)
  {
    hide ReachableIn, Expanded;
    QueueSize(g, queue);
    var paths := set j | 0 <= j < |queue| :: queue[j].path;
    forall ds: set<string> | forall d <- ds :: Reachable(g, d) ensures |ds| <= MAX_DIRECTORIES {
      forall d <- ds ensures d in paths {
        QueueIsReachable(g, queue, d);
      }
      SubsetSize(ds, paths);
    }
  }

  /** No answer lies outside the root, whatever the server lists. */
  lemma AnswersAreContained(g: Graph, q: Query, f: File)
    requires IsClean(g.root) && Answer(g, q, f)
    ensures IsClean(f.fullPath) && Segments(g.root) <= Segments(f.fullPath)
    ensures GoodName(f.name) && Matches(q, f.name) && !f.isForbidden
  {
    hide Reachable, NormalizeListed, IsClean, Contains, Entries, Readable;
    var d :| Reachable(g, d) && AnswerIn(g, q, d, f);
    var k: nat :| k < |Entries(g, d)| && MatchAt(g, q, d, k, f);
    AcceptedIsContained(g.root, d, Entries(g, d)[k]);
  }
}
