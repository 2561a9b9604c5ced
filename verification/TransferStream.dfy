/** Percentages and the body-copying loop of a remote download. */
module TransferStream {
  import opened Prelude

  const BUFFER_SIZE := 256 * 1024
  const TWO_64 := 0x1_0000_0000_0000_0000
  const TWO_63 := 0x8000_0000_0000_0000

  /** The value an int64 holds after arithmetic whose true result is `x`. */
  function Wrap64(x: int): (r: int)
    ensures -TWO_63 <= r < TWO_63
    ensures -TWO_63 <= x < TWO_63 ==> r == x
  {
    (x + TWO_63) % TWO_64 - TWO_63
  }

  /** Go's integer division, which truncates toward zero. */
  function Quotient(a: int, b: int): int
    requires b > 0
  {
    if a >= 0 then a / b else -((-a) / b)
  }

  /** `progress`, with the int64 multiplication it performs. */
  function Progress(done: int, total: int): (pct: int)
    ensures 0 <= pct <= 100
    ensures 0 < total && 0 <= done <= MAX_INT64 / 100 ==> pct == Min(done * 100 / total, 100)
    ensures total <= 0 ==> pct == if done > 0 then 100 else 0
  {
    if total <= 0 then
      if done > 0 then 100 else 0
    else
      var pct := Quotient(Wrap64(done * 100), total);
      if pct > 100 then 100 else if pct < 0 then 0 else pct
  }

  lemma ProgressOfNothing(total: int)
    ensures Progress(0, total) == 0
  {
  }

  /** The percentage is the true one for every amount exactly when 100 times the total fits in an int64. */
  lemma ProgressExactIff(total: int)
    requires 0 < total <= MAX_INT64
    ensures (forall done {:trigger Progress(done, total)} ::
               0 <= done <= total ==> Progress(done, total) == done * 100 / total)
            <==> total <= MAX_INT64 / 100
  {
    if total <= MAX_INT64 / 100 {
      forall done {:trigger Progress(done, total)} | 0 <= done <= total
        ensures Progress(done, total) == done * 100 / total
      {
        ProgressExact(done, total);
      }
    } else {
      ProgressWrong(total);
    }
  }

  lemma ProgressExact(done: int, total: int)
    requires 0 <= done <= total <= MAX_INT64 / 100 && 0 < total
    ensures Progress(done, total) == done * 100 / total
  {
    ShareInRange(done, total);
    assert Wrap64(done * 100) == done * 100;
  }

  /** The smallest amount whose hundredfold wraps is reported as 0, though it is at least one percent. */
  lemma ProgressWrong(total: int)
    requires MAX_INT64 / 100 < total <= MAX_INT64
    ensures 0 <= MAX_INT64 / 100 + 1 <= total
    ensures Progress(MAX_INT64 / 100 + 1, total) != (MAX_INT64 / 100 + 1) * 100 / total
  {
    var done := MAX_INT64 / 100 + 1;
    var wrapped := Wrap64(done * 100);
    assert wrapped == done * 100 - TWO_64 < 0;
    NegativeQuotient(wrapped, total);
    ShareAtLeastOne(done * 100, total);
  }

  lemma ShareInRange(done: int, total: int)
    requires 0 <= done <= total && 0 < total
    ensures 0 <= done * 100 / total <= 100
  {
    var q := done * 100 / total;
    assert q * total <= done * 100 <= total * 100;
  }

  lemma NegativeQuotient(a: int, b: int)
    requires a < 0 < b
    ensures Quotient(a, b) <= 0
  {
  }

  lemma ShareAtLeastOne(a: int, b: int)
    requires 0 < b <= a
    ensures a / b >= 1
  {
  }

  /** The totals under which progress never falls: a hundred times them fits, or nothing reaches one percent. */
  predicate Steady(total: int) {
    total <= MAX_INT64 / 100 || total >= MAX_INT64 - 2
  }

  /** Under a steady total progress never falls while the copied amount grows towards it. */
  lemma ProgressMonotone(before: int, after: int, total: int)
    requires 0 <= before <= after && Steady(total)
    requires 0 < total ==> after <= total
    ensures Progress(before, total) <= Progress(after, total)
  {
    if 0 < total <= MAX_INT64 / 100 {
      ShareInRange(before, total);
      ShareInRange(after, total);
      QuotientMonotone(before * 100, after * 100, total);
    } else if 0 < total {
      AlwaysNothing(before, total);
      AlwaysNothing(after, total);
    }
  }

  /** Wrapped hundredfolds are multiples of four, so none reaches the three largest totals. */
  lemma AlwaysNothing(done: int, total: int)
    requires total >= MAX_INT64 - 2
    ensures Progress(done, total) == 0
  {
    var wrapped := Wrap64(done * 100);
    var k := (done * 100 + TWO_63) / TWO_64;
    assert wrapped == 4 * (done * 25 - k * (TWO_64 / 4));
    assert wrapped < total;
    if wrapped >= 0 {
      QuotientOfLess(wrapped, total);
    } else {
      NegativeQuotient(wrapped, total);
    }
  }

  lemma QuotientOfLess(a: int, b: int)
    requires 0 <= a < b
    ensures a / b == 0
  {
  }

  /** Where progress falls from one amount to the next, for a total that is not steady. */
  function FallsAfter(total: int): int {
    if total <= MAX_INT64 - 7 then MAX_INT64 / 100 else 1199038364791120855
  }

  lemma ProgressFalls(total: int)
    requires MAX_INT64 / 100 < total < MAX_INT64 - 2
    ensures var done := FallsAfter(total);
      0 <= done < total && Progress(done, total) >= 1 && Progress(done + 1, total) == 0
  {
    var done := FallsAfter(total);
    var wrapped, next := Wrap64(done * 100), Wrap64((done + 1) * 100);
    assert total <= wrapped && next < 0;
    ShareAtLeastOne(wrapped, total);
    NegativeQuotient(next, total);
  }

  /** Progress never falls on the way to a total if and only if the total is steady. */
  lemma ProgressMonotoneIff(total: int)
    requires 0 < total <= MAX_INT64
    ensures (forall before, after {:trigger Progress(before, total), Progress(after, total)} ::
               0 <= before <= after <= total ==> Progress(before, total) <= Progress(after, total))
            <==> Steady(total)
  {
    if Steady(total) {
      forall before, after {:trigger Progress(before, total), Progress(after, total)}
        | 0 <= before <= after <= total
        ensures Progress(before, total) <= Progress(after, total)
      {
        ProgressMonotone(before, after, total);
      }
    } else {
      ProgressFalls(total);
    }
  }

  lemma QuotientMonotone(a: int, b: int, d: int)
    requires 0 <= a <= b && 0 < d
    ensures a / d <= b / d
  {
    var p, q := a / d, b / d;
    assert p * d <= a <= b < q * d + d;
    assert (p - q) * d < d;
    SmallFactor(p - q, d);
  }

  lemma SmallFactor(x: int, d: int)
    requires 0 < d && x * d < d
    ensures x <= 0
  {
  }

  // ----- the copying loop -----

  /** What one `Body.Read` delivers; it never exceeds the buffer. */
  type Chunk = d: seq<Byte> | |d| <= BUFFER_SIZE witness []

  datatype ReadEnd = More | Eof | Broken

  /** One iteration's surroundings: the bytes read, how the read ended, how many of them the
      file system would take and whether the write reports an error. */
  datatype Read = Read(data: Chunk, end: ReadEnd, accept: nat, writeError: bool)

  datatype LoopEnd = StillReading | Finished | Oversize | WriteFailed | ReadFailed

  /** How many bytes a write stores. No file grows beyond 2^63-1 bytes. */
  function Accepted(length: nat, data: Chunk, accept: nat): (written: nat)
    requires length <= MAX_INT64
    ensures written <= |data| && length + written <= MAX_INT64
  {
    Min(Min(accept, |data|), MAX_INT64 - length)
  }

  datatype Verdict = TooLong | Stored(written: nat, whole: bool)

  /** The part of an iteration that deals with the bytes just read. */
  function Judge(length: nat, size: Option<nat>, data: Chunk, accept: nat, writeError: bool): (v: Verdict)
    requires length <= MAX_INT64
    ensures v.Stored? ==> v.written <= |data| && length + v.written <= MAX_INT64
    ensures v.Stored? && v.whole ==> v.written == |data|
    ensures v.Stored? && size.Some? && length <= size.value ==> length + v.written <= size.value
  {
    if size.Some? && (length > size.value || |data| > size.value - length) then TooLong
    else
      var written := Accepted(length, data, accept);
      Stored(written, !writeError && written == |data|)
  }

  /** What one iteration adds to the file and whether the loop goes on. */
  function Turn(r: Read, size: Option<nat>, file: seq<Byte>): Verdict
    requires |file| <= MAX_INT64
  {
    if r.data == [] then Stored(0, true) else Judge(|file|, size, r.data, r.accept, r.writeError)
  }

  /** What the loop leaves in the file and how it ends, read by read. */
  function RunLoop(script: seq<Read>, size: Option<nat>, file: seq<Byte>): (result: (seq<Byte>, LoopEnd))
    requires |file| <= MAX_INT64
    decreases |script|
  {
    if script == [] then (file, StillReading)
    else
      var r := script[0];
      var v := Turn(r, size, file);
      if v.TooLong? then (file, Oversize)
      else
        var grown := file + r.data[..v.written];
        if !v.whole then (grown, WriteFailed)
        else match r.end
          case Eof => (grown, Finished)
          case Broken => (grown, ReadFailed)
          case More => RunLoop(script[1..], size, grown)
  }

  /** The bytes of the reads up to and including the one that reports the end of the body. */
  function Delivered(script: seq<Read>): seq<Byte> {
    if script == [] then []
    else script[0].data + (if script[0].end == More then Delivered(script[1..]) else [])
  }

  lemma TurnFits(r: Read, size: Option<nat>, file: seq<Byte>)
    requires |file| <= MAX_INT64 && (size.Some? ==> |file| <= size.value)
    ensures var v := Turn(r, size, file);
      && (v.TooLong? ==> size.Some? && |file + r.data| > size.value)
      && (v.Stored? ==>
            var grown := file + r.data[..v.written];
            && |grown| <= MAX_INT64
            && (size.Some? ==> |grown| <= size.value)
            && file <= grown <= file + r.data
            && (v.whole ==> grown == file + r.data))
  {
    var v := Turn(r, size, file);
    if v.Stored? {
      assert r.data == r.data[..v.written] + r.data[v.written..];
      if v.whole {
        assert r.data[..v.written] == r.data;
      }
    }
  }

  lemma PrefixStep(file: seq<Byte>, grown: seq<Byte>, data: seq<Byte>, rest: seq<Byte>)
    requires grown <= file + data
    ensures grown <= file + (data + rest)
  {
  }

  /** Whatever the reads and writes do, the file holds a prefix of what was delivered and never more
      than a declared size; it holds all of it when the loop ends normally; and a body is refused
      as too long only if it is. */
  lemma {:induction false} LoopIsExact(script: seq<Read>, size: Option<nat>, file: seq<Byte>)
    requires |file| <= MAX_INT64 && (size.Some? ==> |file| <= size.value)
    ensures var (result, end) := RunLoop(script, size, file);
      && file <= result <= file + Delivered(script)
      && |result| <= MAX_INT64
      && (size.Some? ==> |result| <= size.value)
      && (end == Finished ==> result == file + Delivered(script))
      && (end == Oversize ==> size.Some? && |file + Delivered(script)| > size.value)
    decreases |script|
  {
    if script != [] {
      var r := script[0];
      var v := Turn(r, size, file);
      var rest := if r.end == More then Delivered(script[1..]) else [];
      TurnFits(r, size, file);
      if v.Stored? {
        var grown := file + r.data[..v.written];
        PrefixStep(file, grown, r.data, rest);
        if v.whole {
          assert file + (r.data + rest) == grown + rest;
          if r.end == More {
            LoopIsExact(script[1..], size, grown);
          }
        }
      }
    }
  }

  /** Read `n` is the one that ends the body, and up to it no read breaks and every write takes all it is given. */
  ghost predicate Faultless(script: seq<Read>, n: nat) {
    && n < |script| && script[n].end == Eof
    && (forall i :: 0 <= i < n ==> script[i].end == More)
    && (forall i :: 0 <= i <= n && script[i].data != [] ==>
          script[i].accept >= |script[i].data| && !script[i].writeError)
  }

  lemma FaultlessTail(script: seq<Read>, n: nat)
    requires script != []
    ensures n > 0 ==> (Faultless(script, n) <==> script[0].end == More && WriteWhole(script[0])
                                                  && Faultless(script[1..], n - 1))
    ensures Faultless(script, 0) <==> script[0].end == Eof && WriteWhole(script[0])
  {
    var tail := script[1..];
    assert forall i {:trigger script[i]} :: 0 < i < |script| ==> script[i] == tail[i - 1];
    assert forall i {:trigger tail[i]} :: 0 <= i < |tail| ==> tail[i] == script[i + 1];
  }

  predicate WriteWhole(r: Read) {
    r.data != [] ==> r.accept >= |r.data| && !r.writeError
  }

  lemma TurnIsWhole(r: Read, size: Option<nat>, file: seq<Byte>)
    requires |file| <= MAX_INT64 && (size.Some? ==> |file| <= size.value)
    ensures var v := Turn(r, size, file);
      && (v.Stored? && v.whole <==> WriteWhole(r) && FitsAll(|file| + |r.data|, size))
      && (v.Stored? && v.whole ==> v.written == |r.data| && file + r.data[..v.written] == file + r.data)
  {
  }

  /** The body is no longer than a known size or than a file may be. */
  predicate FitsAll(length: nat, size: Option<nat>) {
    length <= MAX_INT64 && (size.Some? ==> length <= size.value)
  }

  /** The loop ends normally if and only if the body ends without a broken read, every write takes all it is
      given, and the body is not too long. */
  lemma {:induction false} LoopFinishesIff(script: seq<Read>, size: Option<nat>, file: seq<Byte>)
    requires |file| <= MAX_INT64 && (size.Some? ==> |file| <= size.value)
    ensures RunLoop(script, size, file).1 == Finished
            <==> (exists n :: Faultless(script, n)) && FitsAll(|file| + |Delivered(script)|, size)
    decreases |script|
  {
    hide Faultless, Turn;
    if script == [] {
      NoReads();
    } else {
      var r := script[0];
      TurnIsWhole(r, size, file);
      FaultlessTail(script, 0);
      forall n: nat | n > 0
        ensures Faultless(script, n) <==> r.end == More && WriteWhole(r) && Faultless(script[1..], n - 1)
      {
        FaultlessTail(script, n);
      }
      if !WriteWhole(r) {
        assert forall n: nat :: !Faultless(script, n);
      } else if FitsAll(|file| + |r.data|, size) && r.end == More {
        LoopFinishesIff(script[1..], size, file + r.data);
        if n: nat :| Faultless(script[1..], n) {
          assert Faultless(script, n + 1);
        }
      } else if r.end == Eof {
        assert Faultless(script, 0);
      }
    }
  }

  lemma NoReads()
    ensures forall n: nat :: !Faultless([], n)
  {
  }

  function Sum(ns: seq<int>): int {
    if ns == [] then 0 else Sum(ns[..|ns| - 1]) + ns[|ns| - 1]
  }

  lemma SumOfNothing()
    ensures Sum([]) == 0
  {
  }

  lemma SumAppend(ns: seq<int>, n: int)
    ensures Sum(ns + [n]) == Sum(ns) + n
  {
    assert (ns + [n])[..|ns|] == ns;
  }

  /** The loop itself, with the int64 counter it keeps. `added` lists the amounts it reports to the
      task through `addBytes`. Every int64 operation is shown not to overflow. */
  method CopyBody(script: seq<Read>, size: Option<nat>) returns (end: LoopEnd, file: seq<Byte>, added: seq<int>)
    requires size.Some? ==> size.value <= MAX_INT64
    ensures (file, end) == RunLoop(script, size, [])
    ensures Sum(added) == |file| <= MAX_INT64
    ensures forall i :: 0 <= i < |added| ==> 0 < added[i] <= BUFFER_SIZE
    ensures file <= Delivered(script)
    ensures size.Some? ==> |file| <= size.value
    ensures end == Finished ==> file == Delivered(script)
  {
    hide Delivered, Sum;
    SumOfNothing();
    LoopIsExact(script, size, []);
    assert [] + Delivered(script) == Delivered(script);
    var knownSize := size.Some?;
    var expectedSize: Int64 := if knownSize then size.value as Int64 else 0;
    var copied: Int64 := 0;
    var turn := 0;
    file, added := [], [];
    while turn < |script|
      invariant 0 <= turn <= |script|
      invariant copied as int == |file| == Sum(added)
      invariant knownSize ==> copied <= expectedSize
      invariant forall i :: 0 <= i < |added| ==> 0 < added[i] <= BUFFER_SIZE
      invariant RunLoop(script, size, []) == RunLoop(script[turn..], size, file)
    {
      var r := script[turn];
      var count := |r.data|;
      assert script[turn..][0] == r && script[turn..][1..] == script[turn + 1..];
      if count > 0 {
        if knownSize && (copied > expectedSize || count as Int64 > expectedSize - copied) {
          end := Oversize;
          return;
        }
        var written := Accepted(copied as int, r.data, r.accept);
        if written > 0 {
          file := file + r.data[..written];
          copied := copied + written as Int64;
          SumAppend(added, written);
          added := added + [written];
        } else {
          assert file + r.data[..0] == file;
        }
        if r.writeError || written != count {
          end := WriteFailed;
          return;
        }
      } else {
        assert file + r.data[..0] == file;
      }
      if r.end == Eof {
        end := Finished;
        return;
      }
      if r.end == Broken {
        end := ReadFailed;
        return;
      }
      turn := turn + 1;
    }
    end := StillReading;
    assert script[turn..] == [];
  }
}
