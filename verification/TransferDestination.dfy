/** The search for a destination that is neither on disk nor reserved by another download. */
module TransferDestination {
  import opened Prelude

  const LAST_SUFFIX := 999

  datatype Stat = Missing | Present | Broken

  datatype DestinationError = StatFailed | TooManyFiles

  /** Decimal digits, as `%d` prints them. */
  function Decimal(n: nat): (s: string)
    ensures s != []
  {
    var digit := ['0', '1', '2', '3', '4', '5', '6', '7', '8', '9'][n % 10];
    if n < 10 then [digit] else Decimal(n / 10) + [digit]
  }

  lemma {:induction false} DecimalInjective(m: nat, n: nat)
    requires Decimal(m) == Decimal(n)
    ensures m == n
  {
    DecimalLast(m);
    DecimalLast(n);
    if m >= 10 && n >= 10 {
      assert Decimal(m)[..|Decimal(m)| - 1] == Decimal(m / 10);
      assert Decimal(n)[..|Decimal(n)| - 1] == Decimal(n / 10);
      DecimalInjective(m / 10, n / 10);
    }
  }

  lemma DecimalLast(n: nat)
    ensures var s := Decimal(n); '0' <= s[|s| - 1] <= '9' && s[|s| - 1] as int - '0' as int == n % 10
  {
    var digits := ['0', '1', '2', '3', '4', '5', '6', '7', '8', '9'];
    assert forall d :: 0 <= d < 10 ==> digits[d] as int - '0' as int == d;
  }

  /** Where the extension starts: at the last dot, or at the end. */
  function ExtensionAt(name: string, i: nat): (at: nat)
    requires i <= |name|
    ensures at <= |name|
  {
    if i == 0 then |name|
    else if name[i - 1] == '.' then i - 1
    else ExtensionAt(name, i - 1)
  }

  /** The `k`th name that is tried: the plain name, then "stem (k).ext". */
  function Candidate(name: string, k: nat): string {
    var at := ExtensionAt(name, |name|);
    if k == 0 then name else name[..at] + " (" + Decimal(k) + ")" + name[at..]
  }

  /** The number that decimal digits stand for. */
  function Value(s: string): int {
    if s == "" then 0 else Value(s[..|s| - 1]) * 10 + (s[|s| - 1] as int - '0' as int)
  }

  lemma {:induction false} DecimalReads(n: nat)
    ensures Value(Decimal(n)) == n && (n > 0 ==> Decimal(n)[0] != '0')
  {
    DecimalLast(n);
    var s := Decimal(n);
    if n >= 10 {
      DecimalReads(n / 10);
      assert s[..|s| - 1] == Decimal(n / 10);
    } else {
      assert s[..|s| - 1] == "" && Value("") == 0;
    }
  }

  lemma {:induction false} LastDot(name: string, i: nat)
    requires i <= |name| && '.' !in name[i..]
    ensures var at := ExtensionAt(name, i);
      if at == |name| then '.' !in name else name[at] == '.' && '.' !in name[at + 1..]
  {
    if i > 0 && name[i - 1] != '.' {
      assert name[i - 1..] == [name[i - 1]] + name[i..];
      LastDot(name, i - 1);
    } else if i == 0 {
      assert name[0..] == name;
    }
  }

  /** The number goes between the stem and the extension, which is what follows the last dot, with the dot. */
  lemma CandidateForm(name: string, k: nat) returns (stem: string, ext: string)
    ensures name == stem + ext && (if ext == "" then '.' !in name else ext[0] == '.' && '.' !in ext[1..])
    ensures Candidate(name, k) == if k == 0 then name else stem + " (" + Decimal(k) + ")" + ext
  {
    var at := ExtensionAt(name, |name|);
    assert name[|name|..] == "";
    LastDot(name, |name|);
    stem, ext := name[..at], name[at..];
    if at < |name| {
      assert ext[1..] == name[at + 1..];
    }
  }

  /** All the names tried are different. */
  lemma CandidatesDistinct(name: string, j: nat, k: nat)
    requires Candidate(name, j) == Candidate(name, k)
    ensures j == k
  {
    var at := ExtensionAt(name, |name|);
    if j != 0 && k != 0 {
      NumberInCandidate(name, j);
      NumberInCandidate(name, k);
      DecimalInjective(j, k);
    }
  }

  lemma NumberInCandidate(name: string, k: nat)
    requires k != 0
    ensures var at, c := ExtensionAt(name, |name|), Candidate(name, k);
      |c| == |name| + 3 + |Decimal(k)| && c[at + 2..at + 2 + |Decimal(k)|] == Decimal(k)
  {
    var at, c, d := ExtensionAt(name, |name|), Candidate(name, k), Decimal(k);
    assert c == (name[..at] + " (") + d + (")" + name[at..]);
  }

  function InDir(dir: string, name: string): string {
    if dir == "/" then dir + name else dir + "/" + name
  }

  /** The candidate is neither reserved nor an existing file. */
  predicate Free(dir: string, name: string, k: nat, reserved: set<string>, stat: string -> Stat) {
    var path := InDir(dir, Candidate(name, k));
    path !in reserved && stat(path) == Missing
  }

  predicate Taken(dir: string, name: string, k: nat, reserved: set<string>, stat: string -> Stat) {
    var path := InDir(dir, Candidate(name, k));
    path in reserved || stat(path) == Present
  }

  ghost predicate AllTaken(dir: string, name: string, n: nat, reserved: set<string>, stat: string -> Stat) {
    forall j: nat :: j < n ==> Taken(dir, name, j, reserved, stat)
  }

  /** Which destination is chosen: the first candidate that is not taken decides, if its stat is to be had. */
  ghost predicate Chooses(dir: string, name: string, reserved: set<string>, stat: string -> Stat,
                          r: Result<string, DestinationError>)
  {
    match r
    case Ok(path) =>
      exists k: nat :: k <= LAST_SUFFIX && path == InDir(dir, Candidate(name, k)) && Free(dir, name, k, reserved, stat)
                       && AllTaken(dir, name, k, reserved, stat)
    case Err(StatFailed) =>
      exists k: nat :: k <= LAST_SUFFIX && !Free(dir, name, k, reserved, stat) && !Taken(dir, name, k, reserved, stat)
                       && AllTaken(dir, name, k, reserved, stat)
    case Err(TooManyFiles) => AllTaken(dir, name, LAST_SUFFIX + 1, reserved, stat)
  }

  /** There is only one choice. */
  lemma ChoiceIsUnique(dir: string, name: string, reserved: set<string>, stat: string -> Stat,
                       r: Result<string, DestinationError>, r': Result<string, DestinationError>)
    requires Chooses(dir, name, reserved, stat, r) && Chooses(dir, name, reserved, stat, r')
    ensures r == r'
  {
    var k, k' := Chosen(dir, name, reserved, stat, r), Chosen(dir, name, reserved, stat, r');
    hide Taken, Free, Candidate, InDir, Chooses, Chosen;
    OneDecides(dir, name, reserved, stat, k, k');
  }

  lemma OneDecides(dir: string, name: string, reserved: set<string>, stat: string -> Stat, k: nat, k': nat)
    requires k <= LAST_SUFFIX + 1 && AllTaken(dir, name, k, reserved, stat)
    requires k' <= LAST_SUFFIX + 1 && AllTaken(dir, name, k', reserved, stat)
    requires k <= LAST_SUFFIX ==> !Taken(dir, name, k, reserved, stat)
    requires k' <= LAST_SUFFIX ==> !Taken(dir, name, k', reserved, stat)
    ensures k == k'
  {
    hide Taken;
  }

  /** The number of the deciding candidate, or one more than the last. */
  ghost function Chosen(dir: string, name: string, reserved: set<string>, stat: string -> Stat,
                        r: Result<string, DestinationError>): (k: nat)
    requires Chooses(dir, name, reserved, stat, r)
    ensures k <= LAST_SUFFIX + 1 && AllTaken(dir, name, k, reserved, stat)
    ensures k <= LAST_SUFFIX ==> !Taken(dir, name, k, reserved, stat)
    ensures r.Ok? <==> k <= LAST_SUFFIX && Free(dir, name, k, reserved, stat)
    ensures r == Err(TooManyFiles) <==> k > LAST_SUFFIX
    ensures r.Ok? ==> r.value == InDir(dir, Candidate(name, k))
  {
    match r
    case Ok(path) =>
      var k: nat :| k <= LAST_SUFFIX && path == InDir(dir, Candidate(name, k)) && Free(dir, name, k, reserved, stat)
                    && AllTaken(dir, name, k, reserved, stat); k
    case Err(StatFailed) =>
      var k: nat :| k <= LAST_SUFFIX && !Free(dir, name, k, reserved, stat) && !Taken(dir, name, k, reserved, stat)
                    && AllTaken(dir, name, k, reserved, stat); k
    case Err(TooManyFiles) => LAST_SUFFIX + 1
  }

  /** uniqueDestinationReserved. */
  method UniqueDestination(dir: string, name: string, reserved: set<string>, stat: string -> Stat)
    returns (r: Result<string, DestinationError>)
    ensures r.Ok? ==> r.value !in reserved && stat(r.value) == Missing
    ensures Chooses(dir, name, reserved, stat, r)
  {
    hide Candidate, InDir;
    for k := 0 to LAST_SUFFIX + 1
      invariant AllTaken(dir, name, k, reserved, stat)
    {
      var candidate := InDir(dir, Candidate(name, k));
      if candidate !in reserved {
        match stat(candidate)
        case Broken =>
          assert !Taken(dir, name, k, reserved, stat) && !Free(dir, name, k, reserved, stat);
          return Err(StatFailed);
        case Missing =>
          assert Free(dir, name, k, reserved, stat);
          return Ok(candidate);
        case Present =>
      }
      assert Taken(dir, name, k, reserved, stat);
    }
    return Err(TooManyFiles);
  }
}
