/**
 * `scripts/collect_osek_morsheh_database.ts`: candidate dealer numbers are
 * generated from a first digit, seven random middle digits and the check
 * digit that makes the 9-digit checksum pass; numbers already stored are
 * dropped and the rest is split between the workers. The random draws are
 * a parameter; the lookups and the workers themselves are left out.
 */
module CollectOsek {
  import opened Wrappers
  import opened Text
  import opened Seqs

  // ------------------------------------------------------------ checksum

  /**
   * The contribution of digit `d` at index `i`: the digits at even indices
   * are doubled, less 9 when the double exceeds 9.
   */
  function Weight(d: nat, i: nat): (w: nat)
    requires d < 10
    ensures w < 10
  {
    if i % 2 == 0 then (if 2 * d > 9 then 2 * d - 9 else 2 * d) else d
  }

  /** The weighted sum of a digit string, index 0 being the leftmost digit. */
  function WeightedSum(s: string): nat
    requires AllDigits(s)
  {
    if s == [] then 0 else WeightedSum(s[..|s| - 1]) + Weight(DigitValue(s[|s| - 1]), |s| - 1)
  }

  /** The check digit for a weighted sum. */
  function CheckDigit(sum: nat): (d: nat)
    ensures d < 10
  {
    (10 - sum % 10) % 10
  }

  /**
   * A valid number has nine digits and its last digit is the check digit of
   * the first eight. The weighting starts from the left, so this is not the
   * Luhn scheme of ISO/IEC 7812-1, which doubles from the right.
   */
  predicate ValidChecksum(hp: string)
  {
    |hp| == 9 && AllDigits(hp) && DigitValue(hp[8]) == CheckDigit(WeightedSum(hp[..8]))
  }

  /** `parseInt` of one character: its value, or nothing (NaN) when it is not a digit. */
  function ParseDigit(c: char): (r: Option<nat>)
    ensures r.Some? <==> IsDigit(c)
    ensures r.Some? ==> r.value == DigitValue(c) && r.value < 10
  {
    if IsDigit(c) then Some(DigitValue(c)) else None
  }

  /**
   * `calculateIsraeliChecksum`. A non-digit among the first eight characters
   * turns the sum into NaN, and NaN equals nothing, so the number fails.
   */
  method CalculateIsraeliChecksum(hp: string) returns (valid: bool)
    ensures valid <==> ValidChecksum(hp)
  {
    if |hp| != 9 {
      return false;
    }
    var sum: Option<nat> := Some(0);  // None stands for NaN
    for i := 0 to 8
      invariant sum.Some? <==> AllDigits(hp[..i])
      invariant sum.Some? ==> sum.value == WeightedSum(hp[..i])
    {
      assert hp[..i + 1][..i] == hp[..i];
      var digit := ParseDigit(hp[i]);
      if i % 2 == 0 && digit.Some? {
        digit := Some(digit.value * 2);
        if digit.value > 9 {
          digit := Some(digit.value - 9);
        }
      }
      sum := if sum.Some? && digit.Some? then Some(sum.value + digit.value) else None;
    }
    var last := ParseDigit(hp[8]);
    valid := sum.Some? && last == Some((10 - sum.value % 10) % 10);
  }

  /** Validity says that the weighted sum of all nine digits is a multiple of ten. */
  lemma ChecksumIsMultipleOfTen(hp: string)
    requires |hp| == 9 && AllDigits(hp)
    ensures ValidChecksum(hp) <==> (WeightedSum(hp[..8]) + DigitValue(hp[8])) % 10 == 0
  {
    CheckDigitCompletes(WeightedSum(hp[..8]), DigitValue(hp[8]));
  }

  /** A digit is the check digit of a sum exactly when it brings the sum to a multiple of ten. */
  lemma CheckDigitCompletes(s: nat, d: nat)
    requires d < 10
    ensures d == CheckDigit(s) <==> (s + d) % 10 == 0
  {
    var q, r := s / 10, s % 10;
    assert s + d == 10 * q + (r + d) && 0 <= r < 10;
    if r + d < 10 {
      assert (s + d) % 10 == r + d;
    } else {
      assert (s + d) % 10 == r + d - 10;
    }
  }

  /** For every eight-digit prefix exactly one appended digit passes: the check digit. */
  lemma CheckDigitUnique(prefix: string, d: nat)
    requires |prefix| == 8 && AllDigits(prefix) && d < 10
    ensures ValidChecksum(prefix + [DigitChar(d)]) <==> d == CheckDigit(WeightedSum(prefix))
  {
    var hp := prefix + [DigitChar(d)];
    assert hp[..8] == prefix;
    assert DigitValue(hp[8]) == d;
  }

  /** The sum after one digit is replaced: the old contribution leaves, the new one enters. */
  lemma {:induction false} WeightedSumUpdate(s: string, j: nat, c: char)
    requires AllDigits(s) && j < |s| && IsDigit(c)
    ensures AllDigits(s[j := c])
    ensures WeightedSum(s[j := c]) + Weight(DigitValue(s[j]), j) == WeightedSum(s) + Weight(DigitValue(c), j)
  {
    var t := s[j := c];
    assert AllDigits(t) by {
      forall k | 0 <= k < |t|
        ensures IsDigit(t[k])
      {
        if k != j {
          assert t[k] == s[k];
        }
      }
    }
    var n := |s| - 1;
    if j < n {
      assert t[..n] == s[..n][j := c];
      assert t[n] == s[n];
      WeightedSumUpdate(s[..n], j, c);
    } else {
      assert t[..n] == s[..n];
    }
  }

  /**
   * The checksum catches every single-digit substitution: doubling less 9
   * sends the ten digits to ten different values, so one changed digit
   * moves the total by a non-zero amount below ten.
   */
  lemma SingleDigitErrorDetected(hp: string, j: nat, c: char)
    requires ValidChecksum(hp) && j < 9 && IsDigit(c) && c != hp[j]
    ensures !ValidChecksum(hp[j := c])
  {
    var t := hp[j := c];
    var wb, wa := TotalShift(hp, j, c);
    ChecksumIsMultipleOfTen(hp);
    ChecksumIsMultipleOfTen(t);
    ShiftBreaksMultiple(WeightedSum(hp[..8]) + DigitValue(hp[8]), WeightedSum(t[..8]) + DigitValue(t[8]), wb, wa);
  }

  /**
   * Replacing digit `j` of a nine-digit number trades its contribution to
   * the checksum total, `wb`, for that of the new digit, `wa`; two different
   * digits contribute differently.
   */
  lemma TotalShift(hp: string, j: nat, c: char) returns (wb: nat, wa: nat)
    requires |hp| == 9 && AllDigits(hp) && j < 9 && IsDigit(c) && c != hp[j]
    ensures AllDigits(hp[j := c])
    ensures wb < 10 && wa < 10 && wb != wa
    ensures WeightedSum(hp[j := c][..8]) + DigitValue(hp[j := c][8]) + wb == WeightedSum(hp[..8]) + DigitValue(hp[8]) + wa
  {
    var t := hp[j := c];
    WeightedSumUpdate(hp, j, c);
    var before, after := DigitValue(hp[j]), DigitValue(c);
    if j < 8 {
      assert t[..8] == hp[..8][j := c];
      WeightedSumUpdate(hp[..8], j, c);
      assert t[8] == hp[8];
      wb, wa := Weight(before, j), Weight(after, j);
    } else {
      assert t[..8] == hp[..8];
      wb, wa := before, after;
    }
  }

  /** Trading one term below ten for a different one moves a multiple of ten off the multiples. */
  lemma ShiftBreaksMultiple(total: nat, total': nat, a: nat, b: nat)
    requires total % 10 == 0 && a < 10 && b < 10 && a != b && total' + a == total + b
    ensures total' % 10 != 0
  {
    var q := total / 10;
    assert total == 10 * q;
    if b > a {
      assert total' == 10 * q + (b - a);
    } else {
      assert q >= 1;
      assert total' == 10 * (q - 1) + (10 - (a - b));
    }
  }

  /**
   * The inner loop of `generateValidHPNumbers`: the check digits 0 to 9 are
   * tried in order and the first that passes is taken.
   */
  method FindCheckDigit(prefix: string) returns (check: Option<nat>)
    ensures check.Some? ==> check.value < 10 && ValidChecksum(prefix + [DigitChar(check.value)])
    ensures check.Some? ==> forall d :: 0 <= d < check.value ==> !ValidChecksum(prefix + [DigitChar(d)])
    ensures check.None? ==> forall d :: 0 <= d < 10 ==> !ValidChecksum(prefix + [DigitChar(d)])
    ensures |prefix| == 8 && AllDigits(prefix) ==> check == Some(CheckDigit(WeightedSum(prefix)))
  {
    for c := 0 to 10
      invariant forall d :: 0 <= d < c ==> !ValidChecksum(prefix + [DigitChar(d)])
    {
      var valid := CalculateIsraeliChecksum(prefix + [DigitChar(c)]);
      if valid {
        if |prefix| == 8 && AllDigits(prefix) {
          CheckDigitUnique(prefix, c);
        }
        return Some(c);
      }
    }
    if |prefix| == 8 && AllDigits(prefix) {
      CheckDigitUnique(prefix, CheckDigit(WeightedSum(prefix)));
    }
    return None;
  }

  // ----------------------------------------------------------- generation

  /** `s.padStart(width, c)`. */
  function PadStart(s: string, width: nat, c: char): (r: string)
    ensures |r| == if |s| < width then width else |s|
    ensures r[|r| - |s|..] == s
    ensures forall k :: 0 <= k < |r| - |s| ==> r[k] == c
  {
    if |s| < width then seq(width - |s|, _ => c) + s else s
  }

  /** A number below 10^k has at most k digits. */
  lemma {:induction false} NatToStringLength(n: nat, k: nat)
    requires 1 <= k && n < Pow10(k)
    ensures |NatToString(n)| <= k
  {
    if n >= 10 {
      assert Pow10(0) == 1 && Pow10(k) == 10 * Pow10(k - 1);
      assert n == 10 * (n / 10) + n % 10;
      NatToStringLength(n / 10, k - 1);
    }
  }

  /** The seven middle digits made from a random draw below 10^7. */
  function Middle(draw: nat): (m: string)
    requires draw < 10000000
    ensures |m| == 7 && AllDigits(m)
  {
    assert Pow10(7) == 10000000 by {
      assert Pow10(2) == 100 && Pow10(4) == 10000;
    }
    NatToStringLength(draw, 7);
    PadStart(NatToString(draw), 7, '0')
  }

  /**
   * `generateValidHPNumbers`: `ceil(count / n)` numbers for each of the `n`
   * first digits. `randomMiddle(j)` is the j-th draw of
   * `Math.floor(Math.random() * 10000000)`. Every attempt finds its check
   * digit, so the safety limit on attempts is never reached and every first
   * digit gets its full share.
   */
  method GenerateValidHPNumbers(firstDigits: seq<char>, count: nat, randomMiddle: nat -> nat)
    returns (hps: seq<string>, validHPs: seq<nat>)
    requires AllDigits(firstDigits)
    requires forall j :: randomMiddle(j) < 10000000
    ensures |hps| == |validHPs| == if firstDigits == [] then 0 else |firstDigits| * CeilDiv(count, |firstDigits|)
    ensures forall k :: 0 <= k < |hps| ==>
      ValidChecksum(hps[k]) && hps[k][0] in firstDigits && validHPs[k] == DigitsValue(hps[k])
    ensures forall k :: 0 <= k < |hps| ==> Drawn(hps[k], firstDigits, CeilDiv(count, |firstDigits|), k, randomMiddle)
  {
    hps, validHPs := [], [];
    if firstDigits == [] {
      return;
    }
    var attemptsPerDigit := CeilDiv(count, |firstDigits|);
    var draws := 0;
    for n := 0 to |firstDigits|
      invariant |hps| == |validHPs| == n * attemptsPerDigit == draws
      invariant AllValid(hps, validHPs, firstDigits)
      invariant forall k :: 0 <= k < |hps| ==> Drawn(hps[k], firstDigits, attemptsPerDigit, k, randomMiddle)
    {
      var more, values;
      more, values, draws := GenerateForDigit(firstDigits[n], attemptsPerDigit, randomMiddle, draws);
      BlockDrawn(hps, more, firstDigits, n, attemptsPerDigit, randomMiddle);
      assert AllValid(more, values, firstDigits);
      AllValidAppend(hps, validHPs, more, values, firstDigits);
      hps, validHPs := hps + more, validHPs + values;
      assert (n + 1) * attemptsPerDigit == n * attemptsPerDigit + attemptsPerDigit;
    }
  }

  /** Every number passes the checksum, starts with one of the digits and is listed with its value. */
  predicate AllValid(hps: seq<string>, validHPs: seq<nat>, firstDigits: seq<char>)
  {
    |hps| == |validHPs| &&
    forall k :: 0 <= k < |hps| ==>
      ValidChecksum(hps[k]) && hps[k][0] in firstDigits && validHPs[k] == DigitsValue(hps[k])
  }

  lemma AllValidAppend(a: seq<string>, va: seq<nat>, b: seq<string>, vb: seq<nat>, firstDigits: seq<char>)
    requires AllValid(a, va, firstDigits) && AllValid(b, vb, firstDigits)
    ensures AllValid(a + b, va + vb, firstDigits)
  {
    assert forall k :: |a| <= k < |a + b| ==> (a + b)[k] == b[k - |a|] && (va + vb)[k] == vb[k - |a|];
  }

  /**
   * Number `k` of the list of a run with `a` numbers per first digit: its
   * first digit is that of block `k / a`, its seven middle digits are draw `k`.
   */
  predicate Drawn(hp: string, firstDigits: seq<char>, a: nat, k: nat, randomMiddle: nat -> nat)
    requires forall j :: randomMiddle(j) < 10000000
  {
    && a > 0 && k / a < |firstDigits| && |hp| == 9
    && hp[0] == firstDigits[k / a] && hp[1..8] == Middle(randomMiddle(k))
  }

  /** Numbers from `n * a` to `n * a + a - 1` lie in block `n`. */
  lemma DivBlock(k: nat, n: nat, a: nat)
    requires a > 0 && n * a <= k < n * a + a
    ensures k / a == n
  {
    var q, r := k / a, k % a;
    assert k == q * a + r && 0 <= r < a;
    if q < n {
      MulLe(q + 1, n, a);
    } else if q > n {
      MulLe(n + 1, q, a);
    }
  }

  lemma MulLe(x: nat, y: nat, a: nat)
    requires x <= y
    ensures x * a <= y * a
  {
  }

  /** The block of one first digit continues the list. */
  lemma BlockDrawn(hps: seq<string>, more: seq<string>, firstDigits: seq<char>, n: nat, a: nat, randomMiddle: nat -> nat)
    requires forall j :: randomMiddle(j) < 10000000
    requires n < |firstDigits| && |hps| == n * a && |more| == a
    requires forall k :: 0 <= k < |hps| ==> Drawn(hps[k], firstDigits, a, k, randomMiddle)
    requires forall k :: 0 <= k < |more| ==>
      |more[k]| == 9 && more[k][0] == firstDigits[n] && more[k][1..8] == Middle(randomMiddle(|hps| + k))
    ensures forall k :: 0 <= k < |hps + more| ==> Drawn((hps + more)[k], firstDigits, a, k, randomMiddle)
  {
    forall k | |hps| <= k < |hps + more|
      ensures Drawn((hps + more)[k], firstDigits, a, k, randomMiddle)
    {
      var j := k - |hps|;
      assert (hps + more)[k] == more[j];
      NextBlockDrawn(more[j], firstDigits, n, a, |hps|, k, randomMiddle);
    }
  }

  /** A number of block `n` with the draw of its place in the list is drawn there. */
  lemma NextBlockDrawn(hp: string, firstDigits: seq<char>, n: nat, a: nat, start: nat, k: nat, randomMiddle: nat -> nat)
    requires forall i :: randomMiddle(i) < 10000000
    requires n < |firstDigits| && start == n * a && start <= k < start + a
    requires |hp| == 9 && hp[0] == firstDigits[n] && hp[1..8] == Middle(randomMiddle(k))
    ensures Drawn(hp, firstDigits, a, k, randomMiddle)
  {
    DivBlock(k, n, a);
  }

  /**
   * The inner loop for one first digit: `attemptsPerDigit` numbers, each
   * from the next draw, with its check digit appended.
   */
  method GenerateForDigit(firstDigit: char, attemptsPerDigit: nat, randomMiddle: nat -> nat, draws: nat)
    returns (hps: seq<string>, validHPs: seq<nat>, drawsAfter: nat)
    requires IsDigit(firstDigit)
    requires forall j :: randomMiddle(j) < 10000000
    ensures |hps| == |validHPs| == attemptsPerDigit && drawsAfter == draws + attemptsPerDigit
    ensures forall k :: 0 <= k < |hps| ==>
      ValidChecksum(hps[k]) && hps[k][0] == firstDigit && validHPs[k] == DigitsValue(hps[k])
    ensures forall k :: 0 <= k < |hps| ==> |hps[k]| == 9 && hps[k][1..8] == Middle(randomMiddle(draws + k))
  {
    hps, validHPs, drawsAfter := [], [], draws;
    var generated, attempts := 0, 0;
    var maxAttempts := attemptsPerDigit * 10;
    while generated < attemptsPerDigit && attempts < maxAttempts
      invariant generated == attempts <= attemptsPerDigit && drawsAfter == draws + generated
      invariant |hps| == |validHPs| == generated
      invariant forall k :: 0 <= k < |hps| ==>
        ValidChecksum(hps[k]) && hps[k][0] == firstDigit && validHPs[k] == DigitsValue(hps[k])
      invariant forall k :: 0 <= k < |hps| ==> |hps[k]| == 9 && hps[k][1..8] == Middle(randomMiddle(draws + k))
      decreases attemptsPerDigit - generated
    {
      var hp := NextNumber(firstDigit, randomMiddle(drawsAfter));
      drawsAfter := drawsAfter + 1;
      if hp.Some? {
        hps := hps + [hp.value];
        validHPs := validHPs + [DigitsValue(hp.value)];
        generated := generated + 1;
      }
      attempts := attempts + 1;
    }
  }

  /**
   * One attempt: the first digit, the seven digits of the draw and the check
   * digit the search finds. The search always finds one.
   */
  method NextNumber(firstDigit: char, draw: nat) returns (hp: Option<string>)
    requires IsDigit(firstDigit) && draw < 10000000
    ensures hp.Some? && ValidChecksum(hp.value) && hp.value[0] == firstDigit
    ensures |hp.value| == 9 && hp.value[1..8] == Middle(draw)
  {
    var prefix := DigitPrefix(firstDigit, draw);
    var check := FindCheckDigit(prefix);
    hp := if check.Some? then Some(prefix + [DigitChar(check.value)]) else None;
    assert hp.value[..8] == prefix;
  }

  /** `firstDigit + middle`: eight digits. */
  function DigitPrefix(firstDigit: char, draw: nat): (p: string)
    requires IsDigit(firstDigit) && draw < 10000000
    ensures |p| == 8 && AllDigits(p) && p[0] == firstDigit && p[1..] == Middle(draw)
  {
    var middle := Middle(draw);
    var p := [firstDigit] + middle;
    assert forall k :: 1 <= k < 8 ==> p[k] == middle[k - 1];
    p
  }

  // ------------------------------------------------------------ selection

  /** `validHPs.filter(hp => !existingHPs.has(hp))`. */
  function NewHPs(validHPs: seq<nat>, existing: set<nat>): (r: seq<nat>)
    ensures forall k :: 0 <= k < |r| ==> r[k] in validHPs && r[k] !in existing
    ensures forall k :: 0 <= k < |validHPs| && validHPs[k] !in existing ==> validHPs[k] in r
    ensures forall x :: multiset(r)[x] == if x in existing then 0 else multiset(validHPs)[x]
  {
    var r := Filter(validHPs, hp => hp !in existing);
    forall x
      ensures multiset(r)[x] == if x in existing then 0 else multiset(validHPs)[x]
    {
      FilterMultiset(validHPs, hp => hp !in existing, x);
    }
    r
  }

  /** The new numbers keep the order in which they were generated. */
  lemma NewHPsKeepOrder(validHPs: seq<nat>, existing: set<nat>)
    ensures Subsequence(NewHPs(validHPs, existing), validHPs)
  {
    FilterSubsequence(validHPs, hp => hp !in existing);
  }

  /** When none of the generated numbers is stored, all of them are new. */
  lemma NothingStoredKeepsAll(validHPs: seq<nat>, existing: set<nat>)
    requires forall k :: 0 <= k < |validHPs| ==> validHPs[k] !in existing
    ensures NewHPs(validHPs, existing) == validHPs
  {
    FilterAll(validHPs, hp => hp !in existing);
  }

  // ------------------------------------------------------------- workers

  const MaxWorkers: nat := 3

  function Min(a: int, b: int): int
  {
    if a < b then a else b
  }

  /** One more slice extends the covered prefix. */
  lemma ChunkStep<T>(s: seq<T>, chunks: seq<seq<T>>, start: nat, end: nat)
    requires start <= end <= |s| && Flatten(chunks) == s[..start]
    ensures Flatten(chunks + [s[start..end]]) == s[..end]
  {
    FlattenSnoc(chunks, s[start..end]);
    PrefixSplit(s, start, end);
  }

  /** Where worker `k`'s slice starts: `k` chunks of `cs` numbers in. */
  ghost function Offset(k: nat, cs: nat): nat
  {
    if k == 0 then 0 else Offset(k - 1, cs) + cs
  }

  /** The offset is the product `k * cs`. */
  lemma {:induction false} OffsetIsProduct(k: nat, cs: nat)
    ensures Offset(k, cs) == k * cs
  {
    if k > 0 {
      OffsetIsProduct(k - 1, cs);
      assert k * cs == (k - 1) * cs + cs;
    }
  }

  /** Offsets grow with the worker index. */
  lemma {:induction false} OffsetMono(a: nat, b: nat, cs: nat)
    requires a <= b
    ensures Offset(a, cs) <= Offset(b, cs)
  {
    if a < b {
      OffsetMono(a, b - 1, cs);
    }
  }

  /** `chunk` is worker `k`'s slice of `s` for chunks of `cs` numbers, and that slice starts inside `s`. */
  ghost predicate WorkerSlice<T>(s: seq<T>, cs: nat, k: nat, chunk: seq<T>)
  {
    Offset(k, cs) < |s| && chunk == s[Offset(k, cs)..Min(Offset(k, cs) + cs, |s|)]
  }

  /** The chunks the first `i` workers are given: worker `w` gets a slice when its offset is inside `s`. */
  ghost function Chunked<T>(s: seq<T>, cs: nat, i: nat): seq<seq<T>>
  {
    if i == 0 then []
    else
      var start := Offset(i - 1, cs);
      Chunked(s, cs, i - 1) + (if start < |s| then [s[start..Min(start + cs, |s|)]] else [])
  }

  /**
   * The first `i` workers' chunks: at most one each, fewer only once the
   * list is used up, and each its worker's slice.
   */
  lemma {:induction false} ChunkedSlices<T>(s: seq<T>, cs: nat, i: nat)
    ensures var c := Chunked(s, cs, i);
      && |c| <= i
      && (|c| < i ==> Offset(|c|, cs) >= |s|)
      && (forall k :: 0 <= k < |c| ==> WorkerSlice(s, cs, k, c[k]))
  {
    if i > 0 {
      ChunkedSlices(s, cs, i - 1);
      var c := Chunked(s, cs, i - 1);
      var start := Offset(i - 1, cs);
      if start < |s| {
        if |c| < i - 1 {
          OffsetMono(|c|, i - 1, cs);
          assert false;
        }
        var chunk := s[start..Min(start + cs, |s|)];
        assert Chunked(s, cs, i) == c + [chunk];
        assert WorkerSlice(s, cs, |c|, chunk);
      } else {
        assert Chunked(s, cs, i) == c;
      }
    }
  }

  /** Together the first `i` workers' chunks are the prefix of `s` up to `min(Offset(i), |s|)`. */
  lemma {:induction false} ChunkedFlatten<T>(s: seq<T>, cs: nat, i: nat)
    ensures Flatten(Chunked(s, cs, i)) == s[..Min(Offset(i, cs), |s|)]
  {
    if i > 0 {
      ChunkedFlatten(s, cs, i - 1);
      var c := Chunked(s, cs, i - 1);
      var start := Offset(i - 1, cs);
      var end := Min(start + cs, |s|);
      assert Min(Offset(i, cs), |s|) == end;
      if start < |s| {
        assert Flatten(Chunked(s, cs, i)) == s[..end] by {
          assert Chunked(s, cs, i) == c + [s[start..end]];
          ChunkStep(s, c, start, end);
        }
      } else {
        assert Flatten(Chunked(s, cs, i)) == s[..end] by {
          assert Chunked(s, cs, i) == c;
        }
      }
    }
  }

  /**
   * The split of the new numbers between the workers: with
   * `cs = ceil(n / MaxWorkers)`, worker `i` gets the slice from `i * cs` to
   * `min(i * cs + cs, n)`, and a slice only when its start is inside the
   * list.
   */
  method SplitIntoChunks(newHPs: seq<nat>) returns (chunks: seq<seq<nat>>)
    ensures |chunks| <= MaxWorkers
    ensures var cs := CeilDiv(|newHPs|, MaxWorkers);
      forall i :: 0 <= i < MaxWorkers ==> (i < |chunks| <==> i * cs < |newHPs|)
    ensures var cs := CeilDiv(|newHPs|, MaxWorkers);
      forall k :: 0 <= k < |chunks| ==> k * cs < |newHPs| && chunks[k] == newHPs[k * cs..Min(k * cs + cs, |newHPs|)]
    ensures Flatten(chunks) == newHPs
    ensures forall k :: 0 <= k < |chunks| ==> 0 < |chunks[k]| <= CeilDiv(|newHPs|, MaxWorkers)
  {
    var chunkSize := CeilDiv(|newHPs|, MaxWorkers);
    chunks := [];
    for i := 0 to MaxWorkers
      invariant chunks == Chunked(newHPs, chunkSize, i)
    {
      var start := i * chunkSize;
      assert start == Offset(i, chunkSize) by {
        OffsetIsProduct(i, chunkSize);
      }
      var end := Min(start + chunkSize, |newHPs|);
      if start < |newHPs| {
        chunks := chunks + [newHPs[start..end]];
      }
    }
    assert Offset(MaxWorkers, chunkSize) >= |newHPs| by {
      OffsetIsProduct(MaxWorkers, chunkSize);
    }
    ChunkedSlices(newHPs, chunkSize, MaxWorkers);
    ChunkedFlatten(newHPs, chunkSize, MaxWorkers);
    SplitFacts(newHPs, chunkSize, chunks);
  }

  /** The shape facts of `SplitIntoChunks`, restated from offsets to the products `k * chunkSize`. */
  lemma SplitFacts<T>(newHPs: seq<T>, chunkSize: nat, chunks: seq<seq<T>>)
    requires Offset(MaxWorkers, chunkSize) >= |newHPs|
    requires |chunks| <= MaxWorkers
    requires |chunks| < MaxWorkers ==> Offset(|chunks|, chunkSize) >= |newHPs|
    requires forall k :: 0 <= k < |chunks| ==> WorkerSlice(newHPs, chunkSize, k, chunks[k])
    requires Flatten(chunks) == newHPs[..Min(Offset(MaxWorkers, chunkSize), |newHPs|)]
    ensures forall i :: 0 <= i < MaxWorkers ==> (i < |chunks| <==> i * chunkSize < |newHPs|)
    ensures forall k :: 0 <= k < |chunks| ==> k * chunkSize < |newHPs| && chunks[k] == newHPs[k * chunkSize..Min(k * chunkSize + chunkSize, |newHPs|)]
    ensures Flatten(chunks) == newHPs
    ensures forall k :: 0 <= k < |chunks| ==> 0 < |chunks[k]| <= chunkSize
  {
    forall i | 0 <= i < MaxWorkers
      ensures i < |chunks| <==> i * chunkSize < |newHPs|
    {
      OffsetIsProduct(i, chunkSize);
      if |chunks| <= i {
        OffsetMono(|chunks|, i, chunkSize);
      } else {
        assert WorkerSlice(newHPs, chunkSize, i, chunks[i]);
      }
    }
    forall k | 0 <= k < |chunks|
      ensures k * chunkSize < |newHPs| && chunks[k] == newHPs[k * chunkSize..Min(k * chunkSize + chunkSize, |newHPs|)]
      ensures 0 < |chunks[k]| <= chunkSize
    {
      OffsetIsProduct(k, chunkSize);
      assert WorkerSlice(newHPs, chunkSize, k, chunks[k]);
    }
    assert newHPs[..Min(Offset(MaxWorkers, chunkSize), |newHPs|)] == newHPs;
  }
}
