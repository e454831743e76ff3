/** Bitmap allocators for ClusterIPs and node names (pkg/kubeapiserver/utils/alloc.go). */
module BitmapAllocator {
  import opened Wrappers
  import opened Decimal

  const IP_PREFIX := "100.0.0."
  const IP_POOL_SIZE := 256
  const NODE_PREFIX := "node-"
  const NODE_POOL_SIZE := 64

  datatype AllocError =
    | InvalidBitmapSize
    | NoneAvailable
    | InvalidName
    | OutOfRange
    | NotAllocated

  datatype Result<T> = Ok(value: T) | Err(error: AllocError)

  // ---- Bits --------------------------------------------------------------------------------------

  /** 1 << i on a byte. */
  function Mask(i: nat): bv8
    requires i < 8
  {
    if i == 0 then 0x01 else if i == 1 then 0x02 else if i == 2 then 0x04 else if i == 3 then 0x08
    else if i == 4 then 0x10 else if i == 5 then 0x20 else if i == 6 then 0x40 else 0x80
  }

  predicate IsSet(b: bv8, i: nat)
    requires i < 8
  {
    b & Mask(i) != 0
  }

  lemma SetOneBit(b: bv8, i: nat, j: nat)
    requires i < 8 && j < 8
    ensures IsSet(b | Mask(i), j) <==> i == j || IsSet(b, j)
  {
  }

  lemma ClearOneBit(b: bv8, i: nat, j: nat)
    requires i < 8 && j < 8
    ensures IsSet(b & !Mask(i), j) <==> i != j && IsSet(b, j)
  {
  }

  lemma ClearUndoesSet(b: bv8, i: nat)
    requires i < 8 && !IsSet(b, i)
    ensures (b | Mask(i)) & !Mask(i) == b
  {
  }

  lemma FullByte(b: bv8)
    ensures b == 0xff <==> forall i :: 0 <= i < 8 ==> IsSet(b, i)
  {
    if forall i :: 0 <= i < 8 ==> IsSet(b, i) {
      assert IsSet(b, 0) && IsSet(b, 1) && IsSet(b, 2) && IsSet(b, 3);
      assert IsSet(b, 4) && IsSet(b, 5) && IsSet(b, 6) && IsSet(b, 7);
    }
  }

  /** The indices whose bit is set. */
  function Bits(bitmap: seq<bv8>): set<nat> {
    set k: nat | k < 8 * |bitmap| && IsSet(bitmap[k / 8], k % 8)
  }

  lemma BitIsShift(b: bv8, i: nat)
    requires i < 8
    ensures Mask(i) == 1 << i && (IsSet(b, i) <==> (b >> i) & 1 == 1)
  {
    if i < 4 {
      assert i == 0 || i == 1 || i == 2 || i == 3;
    } else {
      assert i == 4 || i == 5 || i == 6 || i == 7;
    }
  }

  /** Index k is bit k % 8 of byte k / 8, counted from the least significant one. */
  lemma BitsAreShifts(bitmap: seq<bv8>, k: nat)
    ensures k in Bits(bitmap) <==> k / 8 < |bitmap| && (bitmap[k / 8] >> (k % 8)) & 1 == 1
  {
    if k / 8 < |bitmap| {
      BitIsShift(bitmap[k / 8], k % 8);
    }
  }

  function WithBit(bitmap: seq<bv8>, k: nat): seq<bv8>
    requires k < 8 * |bitmap|
  {
    bitmap[k / 8 := bitmap[k / 8] | Mask(k % 8)]
  }

  function WithoutBit(bitmap: seq<bv8>, k: nat): seq<bv8>
    requires k < 8 * |bitmap|
  {
    bitmap[k / 8 := bitmap[k / 8] & !Mask(k % 8)]
  }

  lemma BitsWithBit(bitmap: seq<bv8>, k: nat)
    requires k < 8 * |bitmap|
    ensures Bits(WithBit(bitmap, k)) == Bits(bitmap) + {k}
  {
    forall j: nat | j < 8 * |bitmap|
      ensures IsSet(WithBit(bitmap, k)[j / 8], j % 8) <==> j == k || IsSet(bitmap[j / 8], j % 8)
    {
      SetOneBit(bitmap[k / 8], k % 8, j % 8);
      assert j == 8 * (j / 8) + j % 8 && k == 8 * (k / 8) + k % 8;
    }
  }

  lemma BitsWithoutBit(bitmap: seq<bv8>, k: nat)
    requires k < 8 * |bitmap|
    ensures Bits(WithoutBit(bitmap, k)) == Bits(bitmap) - {k}
  {
    forall j: nat | j < 8 * |bitmap|
      ensures IsSet(WithoutBit(bitmap, k)[j / 8], j % 8) <==> j != k && IsSet(bitmap[j / 8], j % 8)
    {
      ClearOneBit(bitmap[k / 8], k % 8, j % 8);
      assert j == 8 * (j / 8) + j % 8 && k == 8 * (k / 8) + k % 8;
    }
  }

  /** Freeing a slot right after it was taken restores every byte. */
  lemma FreeUndoesAlloc(bitmap: seq<bv8>, k: nat)
    requires k < 8 * |bitmap| && k !in Bits(bitmap)
    ensures WithoutBit(WithBit(bitmap, k), k) == bitmap
  {
    ClearUndoesSet(bitmap[k / 8], k % 8);
  }

  // ---- The search --------------------------------------------------------------------------------

  /** `k` is the least free index. */
  ghost predicate LeastFree(bitmap: seq<bv8>, k: nat) {
    k < 8 * |bitmap| && k !in Bits(bitmap) && forall j: nat :: j < k ==> j in Bits(bitmap)
  }

  ghost predicate Full(bitmap: seq<bv8>) {
    forall k: nat :: k < 8 * |bitmap| ==> k in Bits(bitmap)
  }

  ghost predicate TakenBelow(bitmap: seq<bv8>, n: nat) {
    forall j: nat :: j < n ==> j in Bits(bitmap)
  }

  lemma ByteScanned(bitmap: seq<bv8>, idx: nat, i: nat)
    requires idx < |bitmap| && i < 8 && TakenBelow(bitmap, 8 * idx + i)
    ensures IsSet(bitmap[idx], i) ==> TakenBelow(bitmap, 8 * idx + i + 1)
    ensures !IsSet(bitmap[idx], i) ==> LeastFree(bitmap, 8 * idx + i)
    ensures WithBit(bitmap, 8 * idx + i) == bitmap[idx := bitmap[idx] | Mask(i)]
  {
    var k := 8 * idx + i;
    assert k / 8 == idx && k % 8 == i;
  }

  lemma FullByteScanned(bitmap: seq<bv8>, idx: nat)
    requires idx < |bitmap| && bitmap[idx] == 0xff && TakenBelow(bitmap, 8 * idx)
    ensures TakenBelow(bitmap, 8 * idx + 8)
  {
    FullByte(bitmap[idx]);
    forall j: nat | 8 * idx <= j < 8 * idx + 8 ensures j in Bits(bitmap) {
      assert j / 8 == idx;
    }
  }

  lemma NothingLeft(bitmap: seq<bv8>)
    requires TakenBelow(bitmap, 8 * |bitmap|)
    ensures Full(bitmap)
  {
  }

  /** What taking a slot does to the bitmap: the least free bit is set, or, with none free, nothing changes. */
  ghost predicate Taken(before: seq<bv8>, after: seq<bv8>, slot: Result<nat>, size: nat) {
    if |before| != size / 8 then slot == Err(InvalidBitmapSize) && after == before
    else if Full(before) then slot == Err(NoneAvailable) && after == before
    else slot.Ok? && LeastFree(before, slot.value) && after == WithBit(before, slot.value)
  }

  lemma SlotFound(before: seq<bv8>, after: seq<bv8>, idx: nat, i: nat, size: nat)
    requires |before| == size / 8 && idx < |before| && i < 8 && !IsSet(before[idx], i)
    requires TakenBelow(before, 8 * idx + i)
    requires after == before[idx := before[idx] | Mask(i)]
    ensures Taken(before, after, Ok(idx * 8 + i), size)
  {
    ByteScanned(before, idx, i);
  }

  method AllocInternal(bitmap: array<bv8>, size: nat) returns (slot: Result<nat>)
    modifies bitmap
    ensures Taken(old(bitmap[..]), bitmap[..], slot, size)
  {
    if bitmap.Length != size / 8 {
      return Err(InvalidBitmapSize);
    }
    ghost var start := bitmap[..];
    for idx := 0 to bitmap.Length
      invariant bitmap[..] == start && TakenBelow(start, 8 * idx)
    {
      var b := bitmap[idx];
      if b == 0xff {
        FullByteScanned(start, idx);
        continue;
      }
      for i := 0 to 8
        invariant bitmap[..] == start && b == start[idx] && TakenBelow(start, 8 * idx + i)
      {
        ByteScanned(start, idx, i);
        if IsSet(b, i) {
          continue;
        }
        b := b | Mask(i);
        bitmap[idx] := b;
        SlotFound(start, bitmap[..], idx, i, size);
        return Ok(idx * 8 + i);
      }
    }
    NothingLeft(start);
    return Err(NoneAvailable);
  }

  /** AllocIP has the search written out once more instead of calling AllocInternal. */
  method AllocIP(bitmap: array<bv8>) returns (ip: Result<string>)
    modifies bitmap
    ensures Taken(old(bitmap[..]), bitmap[..], SlotNamed(IP_PREFIX, ip), IP_POOL_SIZE)
    ensures ip.Ok? ==> ip == Ok(IP_PREFIX + Render(SlotNamed(IP_PREFIX, ip).value))
  {
    if bitmap.Length != IP_POOL_SIZE / 8 {
      return Err(InvalidBitmapSize);
    }
    ghost var start := bitmap[..];
    for idx := 0 to bitmap.Length
      invariant bitmap[..] == start && TakenBelow(start, 8 * idx)
    {
      var b := bitmap[idx];
      if b == 0xff {
        FullByteScanned(start, idx);
        continue;
      }
      for i := 0 to 8
        invariant bitmap[..] == start && b == start[idx] && TakenBelow(start, 8 * idx + i)
      {
        ByteScanned(start, idx, i);
        if IsSet(b, i) {
          continue;
        }
        ip := Ok(IP_PREFIX + Render(idx * 8 + i));
        b := b | Mask(i);
        bitmap[idx] := b;
        SlotFound(start, bitmap[..], idx, i, IP_POOL_SIZE);
        ScanReadsRender(IP_PREFIX, idx * 8 + i);
        return;
      }
    }
    NothingLeft(start);
    return Err(NoneAvailable);
  }

  /** The slot a printed name stands for, as FreeIP and FreeNode read it back. */
  function SlotNamed(prefix: string, name: Result<string>): Result<nat> {
    match name
    case Err(e) => Err(e)
    case Ok(s) =>
      match ScanAfter(prefix, s)
      case Some(n) => if n >= 0 then Ok(n) else Err(InvalidName)
      case None => Err(InvalidName)
  }

  method AllocNode(bitmap: array<bv8>) returns (node: Result<string>)
    modifies bitmap
    ensures Taken(old(bitmap[..]), bitmap[..], SlotNamed(NODE_PREFIX, node), NODE_POOL_SIZE)
    ensures node.Ok? ==> node == Ok(NODE_PREFIX + Render(SlotNamed(NODE_PREFIX, node).value))
  {
    var nodeNum := AllocInternal(bitmap, NODE_POOL_SIZE);
    if nodeNum.Err? {
      return Err(nodeNum.error);
    }
    ScanReadsRender(NODE_PREFIX, nodeNum.value);
    return Ok(NODE_PREFIX + Render(nodeNum.value));
  }

  /** What freeing slot number `slot` answers and does; the checks come in this order. */
  ghost predicate Released(before: seq<bv8>, after: seq<bv8>, slot: int, size: nat, error: Option<AllocError>) {
    if |before| != size / 8 then error == Some(InvalidBitmapSize) && after == before
    else if slot < 0 || slot >= size then error == Some(OutOfRange) && after == before
    else if slot >= 8 * |before| || slot !in Bits(before) then error == Some(NotAllocated) && after == before
    else error == None && after == WithoutBit(before, slot)
  }

  lemma BitAt(bitmap: seq<bv8>, k: nat)
    requires k < 8 * |bitmap|
    ensures k in Bits(bitmap) <==> IsSet(bitmap[k / 8], k % 8)
    ensures WithoutBit(bitmap, k) == bitmap[k / 8 := bitmap[k / 8] & !Mask(k % 8)]
  {
  }

  method FreeInternal(bitmap: array<bv8>, size: nat, idx: int) returns (error: Option<AllocError>)
    requires size % 8 == 0
    modifies bitmap
    ensures Released(old(bitmap[..]), bitmap[..], idx, size, error)
  {
    if bitmap.Length != size / 8 {
      return Some(InvalidBitmapSize);
    }
    if idx < 0 || idx >= size {
      return Some(OutOfRange);
    }
    ghost var before := bitmap[..];
    assert 8 * |before| == size;
    BitAt(before, idx);
    var b := bitmap[idx / 8];
    if !IsSet(b, idx % 8) {
      return Some(NotAllocated);
    }
    bitmap[idx / 8] := b & !Mask(idx % 8);
    assert bitmap[..] == WithoutBit(before, idx);
    return None;
  }

  method FreeNode(node: string, bitmap: array<bv8>) returns (error: Option<AllocError>)
    modifies bitmap
    ensures match ScanAfter(NODE_PREFIX, node)
            case None => error == Some(InvalidName) && bitmap[..] == old(bitmap[..])
            case Some(n) => Released(old(bitmap[..]), bitmap[..], n, NODE_POOL_SIZE, error)
  {
    var nodeNum := ScanAfter(NODE_PREFIX, node);
    if nodeNum.None? {
      return Some(InvalidName);
    }
    error := FreeInternal(bitmap, NODE_POOL_SIZE, nodeNum.value);
  }

  method FreeIP(ip: string, bitmap: array<bv8>) returns (error: Option<AllocError>)
    modifies bitmap
    ensures if bitmap.Length != IP_POOL_SIZE / 8 then error == Some(InvalidBitmapSize) && bitmap[..] == old(bitmap[..])
            else match ScanAfter(IP_PREFIX, ip)
                 case None => error == Some(InvalidName) && bitmap[..] == old(bitmap[..])
                 case Some(n) => Released(old(bitmap[..]), bitmap[..], n, IP_POOL_SIZE, error)
  {
    if bitmap.Length != IP_POOL_SIZE / 8 {
      return Some(InvalidBitmapSize);
    }
    var scanned := ScanAfter(IP_PREFIX, ip);
    if scanned.None? {
      return Some(InvalidName);
    }
    var idx := scanned.value;
    if idx < 0 || idx >= IP_POOL_SIZE {
      return Some(OutOfRange);
    }
    var b := bitmap[idx / 8];
    BitAt(bitmap[..], idx);
    if !IsSet(b, idx % 8) {
      return Some(NotAllocated);
    }
    bitmap[idx / 8] := b & !Mask(idx % 8);
    return None;
  }

  // ---- What the allocators guarantee -------------------------------------------------------------

  /**
    The refinement: on bitmaps of the right size taking a slot adds exactly the least free index to the
    set of taken ones, and fails exactly when the set is full. Both versions of the search satisfy
    `Taken`, so on equal bitmaps they find the same slot and leave equal bitmaps.
  */
  lemma TakenRefinesSet(before: seq<bv8>, after: seq<bv8>, slot: Result<nat>, size: nat)
    requires Taken(before, after, slot, size) && |before| == size / 8
    ensures slot.Err? <==> |Bits(before)| == 8 * |before|
    ensures slot.Ok? ==> slot.value !in Bits(before) && Bits(after) == Bits(before) + {slot.value}
    ensures slot.Err? ==> Bits(after) == Bits(before)
  {
    FullByCount(before);
    if slot.Ok? {
      BitsWithBit(before, slot.value);
    }
  }

  function Upto(n: nat): set<nat> {
    if n == 0 then {} else Upto(n - 1) + {n - 1}
  }

  lemma {:induction false} UptoCounts(n: nat)
    ensures |Upto(n)| == n && forall k: nat :: k in Upto(n) <==> k < n
  {
    if n > 0 {
      UptoCounts(n - 1);
    }
  }

  lemma {:induction false} SubsetCounts(a: set<nat>, b: set<nat>)
    requires a <= b
    ensures |a| <= |b| && (|a| == |b| ==> a == b)
  {
    if a != {} {
      var x :| x in a;
      SubsetCounts(a - {x}, b - {x});
    }
  }

  lemma FullByCount(bitmap: seq<bv8>)
    ensures Full(bitmap) <==> |Bits(bitmap)| == 8 * |bitmap|
  {
    var all := Upto(8 * |bitmap|);
    UptoCounts(8 * |bitmap|);
    assert forall k :: k in Bits(bitmap) ==> k in all;
    SubsetCounts(Bits(bitmap), all);
    if Full(bitmap) {
      assert Bits(bitmap) == all;
    }
  }

  lemma SearchesAgree(before: seq<bv8>, a: seq<bv8>, b: seq<bv8>, x: Result<nat>, y: Result<nat>, size: nat)
    requires Taken(before, a, x, size) && Taken(before, b, y, size)
    ensures x == y && a == b
  {
  }

  /** Freeing the name that was just printed succeeds and restores the bitmap byte for byte. */
  lemma NameRoundTrip(prefix: string, size: nat, before: seq<bv8>, after: seq<bv8>, name: string,
                      restored: seq<bv8>, error: Option<AllocError>)
    requires size % 8 == 0
    requires SlotNamed(prefix, Ok(name)).Ok? && Taken(before, after, SlotNamed(prefix, Ok(name)), size)
    requires Released(after, restored, ScanAfter(prefix, name).value, size, error)
    ensures error == None && restored == before
  {
    var k := ScanAfter(prefix, name).value;
    BitsWithBit(before, k);
    FreeUndoesAlloc(before, k);
  }

  /** A call that has happened, with the bitmap it left and what it answered. */
  datatype Call =
    | Alloc(after: seq<bv8>, slot: Result<nat>)
    | Free(after: seq<bv8>, index: int, error: Option<AllocError>)

  ghost predicate History(start: seq<bv8>, calls: seq<Call>, size: nat)
    decreases |calls|
  {
    calls != [] ==>
      && (match calls[0]
          case Alloc(after, slot) => Taken(start, after, slot, size)
          case Free(after, index, error) => Released(start, after, index, size, error))
      && History(calls[0].after, calls[1..], size)
  }

  /** Successful allocations minus successful frees. */
  function Balance(calls: seq<Call>): int {
    if calls == [] then 0
    else
      (match calls[0]
       case Alloc(_, slot) => if slot.Ok? then 1 else 0
       case Free(_, _, error) => if error.None? then -1 else 0) + Balance(calls[1..])
  }

  function Final(start: seq<bv8>, calls: seq<Call>): seq<bv8>
    decreases |calls|
  {
    if calls == [] then start else Final(calls[0].after, calls[1..])
  }

  /** Conservation: over any run the number of set bits grows by allocations minus frees. */
  lemma {:induction false} BitsAreConserved(start: seq<bv8>, calls: seq<Call>, size: nat)
    requires size % 8 == 0 && |start| == size / 8 && History(start, calls, size)
    ensures |Bits(Final(start, calls))| == |Bits(start)| + Balance(calls)
    ensures |Final(start, calls)| == |start|
    decreases |calls|
  {
    if calls != [] {
      var c := calls[0];
      if c.Alloc? {
        TakenRefinesSet(start, c.after, c.slot, size);
      } else if c.error.None? {
        BitsWithoutBit(start, c.index);
        assert Bits(start) == Bits(c.after) + {c.index};
      }
      BitsAreConserved(c.after, calls[1..], size);
    }
  }
}
