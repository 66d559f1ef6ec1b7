/** How a file of `n` bytes is split into the parts of a multipart upload
    with part size `p`: the part-count formula and the partition itself. */
module Parts {

  /** A part size: the client rejects zero and negative sizes at construction. */
  type PositiveInt = x: int | x > 0 witness 1

  /** One part of a multipart upload: its part number (the first is 1),
      the offset of its first byte in the file, and its length in bytes. */
  datatype Part = Part(number: nat, offset: nat, length: nat)

  lemma MulAtLeast(d: int, p: PositiveInt)
    requires d >= 1
    ensures d * p >= p
  {
    assert d * p == (d - 1) * p + p;
    assert (d - 1) * p >= 0;
  }

  lemma MulStep(d: int, p: int)
    ensures (d + 1) * p == d * p + p
  {
  }

  /** Euclidean division is unique: used to step the part-count formula. */
  lemma DivModUnique(m: int, p: PositiveInt, q: int, r: int)
    requires 0 <= r < p && m == q * p + r
    ensures m / p == q && m % p == r
  {
    var q', r' := m / p, m % p;
    assert m == q' * p + r' && 0 <= r' < p;
    assert (q' - q) * p == r - r' by {
      assert q' * p - q * p == (q' - q) * p;
    }
    if q' > q {
      MulAtLeast(q' - q, p);
    } else if q' < q {
      MulAtLeast(q - q', p);
    }
  }

  /** The number of parts of a file of `n` bytes: one per whole part, plus one
      for a shorter remainder. */
  function ExpectedParts(n: nat, p: PositiveInt): nat
  {
    n / p + (if n % p == 0 then 0 else 1)
  }

  /** The part count is the ceiling of n / p: k parts of p bytes are needed and enough. */
  lemma ExpectedPartsIsCeiling(n: nat, p: PositiveInt)
    ensures ExpectedParts(n, p) == 0 <==> n == 0
    ensures n > 0 ==> (ExpectedParts(n, p) - 1) * p < n <= ExpectedParts(n, p) * p
  {
    var q, r := n / p, n % p;
    assert n == q * p + r;
    MulStep(q, p);
    MulStep(q - 1, p);
  }

  /** Peeling one part of length min(m, p) off a non-empty file leaves one part fewer. */
  lemma ExpectedPartsStep(m: nat, p: PositiveInt)
    requires m > 0
    ensures m <= p ==> ExpectedParts(m, p) == 1
    ensures m > p ==> ExpectedParts(m, p) == 1 + ExpectedParts(m - p, p)
  {
    if m < p {
      DivModUnique(m, p, 0, m);
    } else if m == p {
      DivModUnique(m, p, 1, 0);
    } else {
      var q, r := (m - p) / p, (m - p) % p;
      assert m - p == q * p + r;
      MulStep(q, p);
      DivModUnique(m, p, q + 1, r);
    }
  }

  function Last(parts: seq<Part>): Part
    requires parts != []
  {
    parts[|parts| - 1]
  }

  /** The parts covering bytes `position` to `n`, numbered from `number` on:
      consecutive parts of `p` bytes, the last holding what is left. */
  function PartsFrom(position: nat, n: nat, p: PositiveInt, number: nat): (parts: seq<Part>)
    requires position <= n
    decreases n - position
  {
    if position == n then []
    else
      var length := if n - position < p then n - position else p;
      [Part(number, position, length)] + PartsFrom(position + length, n, p, number + 1)
  }

  /** The parts of a whole file of `n` bytes, numbered from 1. */
  function Partition(n: nat, p: PositiveInt): (parts: seq<Part>)
  {
    PartsFrom(0, n, p, 1)
  }

  /** Unfolding `PartsFrom` once: the first part and the parts after it. */
  lemma PartsFromUnfold(position: nat, n: nat, p: PositiveInt, number: nat)
    requires position < n
    ensures var length := if n - position < p then n - position else p;
      var parts := PartsFrom(position, n, p, number);
      var rest := PartsFrom(position + length, n, p, number + 1);
      && parts == [Part(number, position, length)] + rest
      && parts[0] == Part(number, position, length)
      && parts[1..] == rest
      && (forall j :: 1 <= j < |parts| ==> parts[j] == rest[j - 1])
  {
  }

  /** The parts from `position` on are as many as the part-count formula says for
      the n - position bytes left. */
  lemma {:induction false} PartsFromCount(position: nat, n: nat, p: PositiveInt, number: nat)
    requires position <= n
    ensures |PartsFrom(position, n, p, number)| == ExpectedParts(n - position, p)
    decreases n - position
  {
    if position < n {
      var length := if n - position < p then n - position else p;
      PartsFromUnfold(position, n, p, number);
      ExpectedPartsStep(n - position, p);
      PartsFromCount(position + length, n, p, number + 1);
    } else {
      DivModUnique(0, p, 0, 0);
    }
  }

  /** The parts from `position` on are numbered consecutively, each starts where the
      one before ends, all but the last are exactly `p` bytes long, and the last is
      non-empty and ends at byte `n`. */
  lemma {:induction false} PartsFromShape(position: nat, n: nat, p: PositiveInt, number: nat)
    requires position <= n
    ensures var parts := PartsFrom(position, n, p, number);
      && (forall j :: 0 <= j < |parts| ==> parts[j].number == number + j)
      && (parts != [] ==> parts[0].offset == position)
      && (forall j :: 0 <= j < |parts| - 1 ==> parts[j].length == p)
      && (forall j :: 0 <= j < |parts| - 1 ==> parts[j + 1].offset == parts[j].offset + parts[j].length)
      && (parts != [] ==> 0 < Last(parts).length <= p && Last(parts).offset + Last(parts).length == n)
    decreases n - position
  {
    if position < n {
      var length := if n - position < p then n - position else p;
      PartsFromUnfold(position, n, p, number);
      PartsFromShape(position + length, n, p, number + 1);
    }
  }

  /** Part j of a file: its number is j + 1; unless it is the last it is `p` bytes
      long and the next part starts right after it. */
  lemma PartAt(n: nat, p: PositiveInt, j: nat)
    requires j < |Partition(n, p)|
    ensures var parts := Partition(n, p);
      && parts[j].number == j + 1
      && (j == 0 ==> parts[j].offset == 0)
      && (j + 1 < |parts| ==> parts[j].length == p && parts[j + 1].offset == parts[j].offset + p)
      && (j + 1 == |parts| ==> 0 < parts[j].length <= p && parts[j].offset + parts[j].length == n)
  {
    PartsFromShape(0, n, p, 1);
  }

  /** The part numbers of `parts`, in order: what the completion call lists. */
  function PartNumbers(parts: seq<Part>): (numbers: seq<nat>)
    ensures |numbers| == |parts|
  {
    if parts == [] then [] else [parts[0].number] + PartNumbers(parts[1..])
  }

  lemma {:induction false} PartNumbersAt(parts: seq<Part>, j: nat)
    requires j < |parts|
    ensures PartNumbers(parts)[j] == parts[j].number
    decreases |parts|
  {
    if j > 0 {
      PartNumbersAt(parts[1..], j - 1);
    }
  }

  /** The total number of bytes in `parts`. */
  function TotalLength(parts: seq<Part>): nat
  {
    if parts == [] then 0 else parts[0].length + TotalLength(parts[1..])
  }

  /** There are exactly as many parts as the formula fileSize / partSize +
      (fileSize % partSize == 0 ? 0 : 1) says, and the completion lists them as 1, 2, ... */
  lemma PartitionNumbering(n: nat, p: PositiveInt)
    ensures |Partition(n, p)| == n / p + (if n % p == 0 then 0 else 1)
    ensures forall j :: 0 <= j < |Partition(n, p)| ==> PartNumbers(Partition(n, p))[j] == j + 1
  {
    PartsFromCount(0, n, p, 1);
    forall j | 0 <= j < |Partition(n, p)|
      ensures PartNumbers(Partition(n, p))[j] == j + 1
    {
      PartNumbersAt(Partition(n, p), j);
      PartAt(n, p, j);
    }
  }

  /** Part j starts at byte j * p. */
  lemma {:induction false} PartOffset(n: nat, p: PositiveInt, j: nat)
    requires j < |Partition(n, p)|
    ensures Partition(n, p)[j].offset == j * p
  {
    if j == 0 {
      PartAt(n, p, 0);
    } else {
      PartOffset(n, p, j - 1);
      PartAt(n, p, j - 1);
      MulStep(j - 1, p);
    }
  }

  /** n - (k - 1) * p is the remainder n % p, or p when p divides n,
      where k is the part count. */
  lemma LastLengthArith(n: nat, p: PositiveInt)
    requires n > 0
    ensures n - (ExpectedParts(n, p) - 1) * p == if n % p == 0 then p else n % p
  {
    var q, r := n / p, n % p;
    assert n == q * p + r;
    MulStep(q - 1, p);
  }

  /** The last part holds the remainder n % p, or a whole part when p divides n. */
  lemma LastPartLength(n: nat, p: PositiveInt)
    requires n > 0
    ensures Last(Partition(n, p)).length == if n % p == 0 then p else n % p
  {
    var k := |Partition(n, p)|;
    PartsFromCount(0, n, p, 1);
    ExpectedPartsIsCeiling(n, p);
    PartOffset(n, p, k - 1);
    PartAt(n, p, k - 1);
    LastLengthArith(n, p);
  }

  /** The parts from `position` on cover exactly the bytes from `position` to `n`. */
  lemma {:induction false} PartsFromCover(position: nat, n: nat, p: PositiveInt, number: nat)
    requires position <= n
    ensures TotalLength(PartsFrom(position, n, p, number)) == n - position
    decreases n - position
  {
    if position < n {
      var length := if n - position < p then n - position else p;
      PartsFromUnfold(position, n, p, number);
      PartsFromCover(position + length, n, p, number + 1);
    }
  }

  /** The parts of a file add up to the whole file. */
  lemma PartitionCoversFile(n: nat, p: PositiveInt)
    ensures TotalLength(Partition(n, p)) == n
  {
    PartsFromCover(0, n, p, 1);
  }
}
