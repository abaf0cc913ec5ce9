/**
 * CJournalData (Journal.cpp:190-354): the journal's current-value byte buffer
 * and the ring buffer that records every change of it.
 *
 * The ring has `size` slots, a head (next slot to write) and a tail (slot
 * before the oldest entry). After clearRingBuffer the tail is size - 1, so
 * the ring is full when head == tail and holds at most size - 1 entries.
 * The entries in the ring, oldest first, are given by `RingContents`.
 */
module JournalData {
  import opened Wrappers
  import opened Bytes
  import TcpPacket

  const JOURNAL_MAXSIZE: nat := 16 * 1024 * 1024
  const JOURNAL_MAXENTRYSIZE: nat := 8

  /** sJournalEntry: a timestamp, the group and entry IDs and up to 8 data bytes, zero-padded. */
  datatype RingEntry = RingEntry(timestamp: uint64, groupId: uint16, entryId: uint16, data: seq<byte>)

  /** The zero-padded 8-byte payload of a ring entry. */
  function PaddedData(source: seq<byte>): (r: seq<byte>)
    requires |source| <= JOURNAL_MAXENTRYSIZE
    ensures |r| == JOURNAL_MAXENTRYSIZE
    ensures r[..|source|] == source
    ensures forall i :: |source| <= i < JOURNAL_MAXENTRYSIZE ==> r[i] == 0
  {
    source + seq(JOURNAL_MAXENTRYSIZE - |source|, _ => 0)
  }

  // ---------------------------------------------------------------------
  // Ring arithmetic
  // ---------------------------------------------------------------------

  /** `(i + 1) % size` for a slot index. */
  function Next(i: nat, size: nat): (r: nat)
    requires i < size
    ensures r < size
    ensures r == (i + 1) % size
  {
    if i + 1 < size then i + 1 else i + 1 - size
  }

  /** The number of entries between tail and head. */
  function Count(head: nat, tail: nat, size: nat): (c: nat)
    requires head < size && tail < size
    ensures c < size
    ensures c == (head - tail - 1) % size
  {
    if head > tail then head - tail - 1
    else ModWrapsOnce(head - tail - 1, size); head + size - tail - 1
  }

  /** A value one modulus below the range wraps back into it. */
  lemma ModWrapsOnce(x: int, n: nat)
    requires -(n as int) <= x < 0
    ensures x % n == x + n
  {
    assert x == (x + n) - n;
  }

  /** `(tail + 1 + k) % size`: the slot of the k-th oldest entry. */
  function Slot(tail: nat, k: nat, size: nat): (s: nat)
    requires tail < size && k < size
    ensures s < size
    ensures s == (tail + 1 + k) % size
  {
    if tail + 1 + k < size then tail + 1 + k else tail + 1 + k - size
  }

  /** The entries of the ring, oldest first. */
  function RingContents(slots: seq<RingEntry>, head: nat, tail: nat): (r: seq<RingEntry>)
    requires head < |slots| && tail < |slots|
    ensures |r| == Count(head, tail, |slots|)
  {
    seq(Count(head, tail, |slots|), k requires 0 <= k < Count(head, tail, |slots|) => slots[Slot(tail, k, |slots|)])
  }

  /** ringBufferIsFull: head == tail. */
  predicate IsFull(head: nat, tail: nat)
  {
    head == tail
  }

  /** ringBufferIsEmpty: head == (tail + 1) % size. */
  predicate IsEmpty(head: nat, tail: nat, size: nat)
    requires tail < size
  {
    head == (tail + 1) % size
  }

  lemma FullAndEmptyMeaning(head: nat, tail: nat, size: nat)
    requires head < size && tail < size
    ensures IsFull(head, tail) <==> Count(head, tail, size) == size - 1
    ensures IsEmpty(head, tail, size) <==> Count(head, tail, size) == 0
  {
  }

  /** clearRingBuffer leaves an empty ring whatever the slots hold. */
  lemma ClearedIsEmpty(slots: seq<RingEntry>)
    requires |slots| > 0
    ensures IsEmpty(0, |slots| - 1, |slots|)
    ensures RingContents(slots, 0, |slots| - 1) == []
  {
  }

  /** pushRingBufferEntry: on a ring that is not full, fill the head slot and advance head. */
  lemma PushContents(slots: seq<RingEntry>, head: nat, tail: nat, e: RingEntry)
    requires head < |slots| && tail < |slots| && !IsFull(head, tail)
    ensures RingContents(slots[head := e], Next(head, |slots|), tail) == RingContents(slots, head, tail) + [e]
  {
    var n := |slots|;
    var before := RingContents(slots, head, tail);
    var after := RingContents(slots[head := e], Next(head, n), tail);
    assert |after| == |before| + 1;
    assert Slot(tail, |before|, n) == head;
    forall k | 0 <= k < |before|
      ensures after[k] == before[k]
    {
      assert Slot(tail, k, n) != head;
    }
  }

  /** popRingBufferEntry: on a ring that is not empty, the slot after the tail is the oldest entry. */
  lemma PopContents(slots: seq<RingEntry>, head: nat, tail: nat)
    requires head < |slots| && tail < |slots| && !IsEmpty(head, tail, |slots|)
    ensures RingContents(slots, head, tail) != []
    ensures slots[Next(tail, |slots|)] == RingContents(slots, head, tail)[0]
    ensures RingContents(slots, head, Next(tail, |slots|)) == RingContents(slots, head, tail)[1..]
  {
    var n := |slots|;
    var before := RingContents(slots, head, tail);
    var after := RingContents(slots, head, Next(tail, n));
    assert |after| == |before| - 1;
    forall k | 0 <= k < |after|
      ensures after[k] == before[k + 1]
    {
      assert Slot(Next(tail, n), k, n) == Slot(tail, k + 1, n);
    }
  }

  /** A ring of `size` slots never holds more than size - 1 entries. */
  lemma RingCapacity(slots: seq<RingEntry>, head: nat, tail: nat)
    requires head < |slots| && tail < |slots|
    ensures |RingContents(slots, head, tail)| <= |slots| - 1
    ensures |RingContents(slots, head, tail)| == |slots| - 1 <==> IsFull(head, tail)
  {
  }

  /** getBufferEntryCount as written (Journal.cpp:308-320): a full ring reports size. */
  function BufferEntryCountAsWritten(head: nat, tail: nat, size: nat): (c: nat)
    requires head < size && tail < size
    ensures head != tail ==> c == Count(head, tail, size)
    ensures head == tail ==> c == Count(head, tail, size) + 1
  {
    if head == tail then size
    else if head > tail then head - (tail + 1)
    else (head + size) - (tail + 1)
  }

  /**
   * With two slots, one write after clearRingBuffer fills the ring: the count
   * as written says 2, while the ring holds one entry.
   */
  lemma EntryCountOverstatesFullRing(e: RingEntry, other: RingEntry)
    ensures BufferEntryCountAsWritten(Next(0, 2), 1, 2) == 2
    ensures |RingContents([other, other][0 := e], Next(0, 2), 1)| == 1
  {
  }

  // ---------------------------------------------------------------------
  // Byte-buffer reads and writes
  // ---------------------------------------------------------------------

  /** The argument checks of readData (Journal.cpp:230-239); None when the read may proceed. */
  function ReadError(address: nat, size: nat, bufferSize: nat): (e: Option<ErrorCode>)
    ensures e.None? <==> address + size <= bufferSize && address <= JOURNAL_MAXSIZE && size <= JOURNAL_MAXSIZE
  {
    if address > JOURNAL_MAXSIZE then Some(InvalidJournalAddress)
    else if size > JOURNAL_MAXSIZE then Some(InvalidJournalEntrySize)
    else if address + size > bufferSize then Some(JournalDataBufferOverrun)
    else None
  }

  /** The argument checks of writeData (Journal.cpp:248-257); writes are limited to 8 bytes. */
  function WriteError(address: nat, size: nat, bufferSize: nat): (e: Option<ErrorCode>)
    ensures e.None? <==> address + size <= bufferSize && address <= JOURNAL_MAXSIZE && size <= JOURNAL_MAXENTRYSIZE
  {
    if address > JOURNAL_MAXSIZE then Some(InvalidJournalAddress)
    else if size > JOURNAL_MAXENTRYSIZE then Some(InvalidJournalEntrySize)
    else if address + size > bufferSize then Some(JournalDataBufferOverrun)
    else None
  }

  /**
   * The whole effect of writeData (Journal.cpp:246-288) on `d`, ending in
   * `r`: on an error nothing changes; otherwise the bytes are copied in at
   * the address and, when any of them differed from the buffer, the change
   * is appended to a ring that is not full or counted as an overflow on a
   * full one.
   */
  twostate predicate WrittenData(d: JournalData, address: nat, groupId: uint32, entryId: uint32, source: seq<byte>,
                                 timestamp: uint64, new r: Result<()>)
    reads d, d.values, d.ring
  {
    old(d.Valid()) && d.Valid() && d.values == old(d.values) && d.ring == old(d.ring)
    && (r.Err? ==> d.values[..] == old(d.values[..]) && d.Entries() == old(d.Entries()) && d.overflow == old(d.overflow))
    && (r.Ok? ==> (address + |source| <= d.values.Length && |source| <= JOURNAL_MAXENTRYSIZE
      && d.values[..] == Splice(old(d.values[..]), address, source)
      && (old(d.values[address..address + |source|]) == source ==>
            d.Entries() == old(d.Entries()) && d.overflow == old(d.overflow))
      && (old(d.values[address..address + |source|]) != source && old(|d.Entries()|) < d.ring.Length - 1 ==>
            d.Entries() == old(d.Entries()) + [RingEntry(timestamp, groupId % UINT16_LIMIT, entryId % UINT16_LIMIT, PaddedData(source))]
            && d.overflow == old(d.overflow))
      && (old(d.values[address..address + |source|]) != source && old(|d.Entries()|) == d.ring.Length - 1 ==>
            d.Entries() == old(d.Entries()) && d.overflow == (old(d.overflow) + 1) % UINT32_LIMIT)))
  }

  class JournalData {
    var values: array<byte>
    var ring: array<RingEntry>
    var head: nat
    var tail: nat
    var overflow: uint32

    ghost predicate Valid()
      reads this
    {
      ring.Length > 0 && head < ring.Length && tail < ring.Length && values != ring as object
    }

    /** The entries in the ring, oldest first. */
    ghost function Entries(): seq<RingEntry>
      reads this, ring
      requires Valid()
    {
      RingContents(ring[..], head, tail)
    }

    /** Zero-filled value buffer and a cleared ring (Journal.cpp:199-221 for non-zero sizes). */
    constructor (valueSize: nat, ringSize: nat, filler: RingEntry)
      requires valueSize > 0 && ringSize > 0
      ensures Valid() && fresh(values) && fresh(ring)
      ensures values.Length == valueSize && ring.Length == ringSize
      ensures values[..] == seq(valueSize, _ => 0)
      ensures Entries() == [] && overflow == 0
    {
      values := new byte[valueSize](_ => 0);
      ring := new RingEntry[ringSize](_ => filler);
      head := 0;
      tail := ringSize - 1;
      overflow := 0;
      new;
      ClearedIsEmpty(ring[..]);
    }

    method ClearRingBuffer()
      requires Valid()
      modifies this
      ensures Valid() && values == old(values) && ring == old(ring)
      ensures head == 0 && tail == ring.Length - 1 && overflow == 0
      ensures Entries() == []
    {
      head := 0;
      tail := ring.Length - 1;
      overflow := 0;
      ClearedIsEmpty(ring[..]);
    }

    method RingBufferIsFull() returns (full: bool)
      requires Valid()
      ensures full <==> |Entries()| == ring.Length - 1
    {
      full := head == tail;
      RingCapacity(ring[..], head, tail);
    }

    method RingBufferIsEmpty() returns (empty: bool)
      requires Valid()
      ensures empty <==> Entries() == []
    {
      empty := head == (tail + 1) % ring.Length;
      FullAndEmptyMeaning(head, tail, ring.Length);
    }

    /** getBufferEntryCount, corrected to report the entries a full ring holds. */
    method GetBufferEntryCount() returns (count: nat)
      requires Valid()
      ensures count == |Entries()|
    {
      if head > tail {
        count := head - (tail + 1);
      } else {
        count := (head + ring.Length) - (tail + 1);
      }
    }

    method PushRingBufferEntry(e: RingEntry) returns (r: Result<()>)
      requires Valid()
      modifies this, ring
      ensures Valid() && values == old(values) && ring == old(ring) && overflow == old(overflow)
      ensures r.Err? <==> old(|Entries()|) == ring.Length - 1
      ensures r.Err? ==> r.error == JournalRingBufferIsFull && Entries() == old(Entries())
      ensures r.Ok? ==> Entries() == old(Entries()) + [e]
    {
      if head == tail {
        RingCapacity(ring[..], head, tail);
        return Err(JournalRingBufferIsFull);
      }
      RingCapacity(ring[..], head, tail);
      PushContents(ring[..], head, tail, e);
      ring[head] := e;
      head := (head + 1) % ring.Length;
      r := Ok(());
    }

    method PopRingBufferEntry() returns (r: Result<RingEntry>)
      requires Valid()
      modifies this
      ensures Valid() && values == old(values) && ring == old(ring) && overflow == old(overflow)
      ensures r.Err? <==> old(Entries()) == []
      ensures r.Err? ==> r.error == JournalRingBufferIsEmpty && Entries() == old(Entries())
      ensures r.Ok? ==> r.value == old(Entries())[0] && Entries() == old(Entries())[1..]
    {
      FullAndEmptyMeaning(head, tail, ring.Length);
      if head == (tail + 1) % ring.Length {
        return Err(JournalRingBufferIsEmpty);
      }
      PopContents(ring[..], head, tail);
      tail := (tail + 1) % ring.Length;
      r := Ok(ring[tail]);
    }

    /** readData: copy `size` bytes from `address`. */
    method ReadData(address: nat, size: nat) returns (r: Result<seq<byte>>)
      requires Valid()
      ensures ReadError(address, size, values.Length).Some? ==> r == Err(ReadError(address, size, values.Length).value)
      ensures ReadError(address, size, values.Length).None? ==> r == Ok(values[address..address + size])
    {
      var e := ReadError(address, size, values.Length);
      if e.Some? {
        return Err(e.value);
      }
      var target: seq<byte> := [];
      var i := 0;
      while i < size
        invariant 0 <= i <= size
        invariant target == values[address..address + i]
      {
        target := target + [values[address + i]];
        i := i + 1;
      }
      r := Ok(target);
    }

    /**
     * writeData: copy `source` to `address`; if any byte changed, record the
     * new bytes with the timestamp in the ring, or count an overflow when the
     * ring is full. `timestamp` is the system time the source reads at that
     * moment.
     */
    method WriteData(address: nat, groupId: uint32, entryId: uint32, source: seq<byte>, timestamp: uint64)
      returns (r: Result<()>)
      requires Valid()
      modifies this, values, ring
      ensures Valid() && values == old(values) && ring == old(ring)
      ensures WriteError(address, |source|, values.Length).Some? ==>
        r == Err(WriteError(address, |source|, values.Length).value)
        && values[..] == old(values[..]) && Entries() == old(Entries()) && overflow == old(overflow)
      ensures WriteError(address, |source|, values.Length).None? ==>
        (r.Ok? && values[..] == Splice(old(values[..]), address, source))
      ensures r.Ok? && old(values[address..address + |source|]) == source ==>
        Entries() == old(Entries()) && overflow == old(overflow)
      ensures r.Ok? && old(values[address..address + |source|]) != source && old(|Entries()|) < ring.Length - 1 ==>
        Entries() == old(Entries()) + [RingEntry(timestamp, groupId % UINT16_LIMIT, entryId % UINT16_LIMIT, PaddedData(source))]
        && overflow == old(overflow)
      ensures r.Ok? && old(values[address..address + |source|]) != source && old(|Entries()|) == ring.Length - 1 ==>
        Entries() == old(Entries()) && overflow == (old(overflow) + 1) % UINT32_LIMIT
      ensures WrittenData(this, address, groupId, entryId, source, timestamp, r)
    {
      var e := WriteError(address, |source|, values.Length);
      if e.Some? {
        return Err(e.value);
      }
      var hasChange := CopyIntoValues(address, source);
      if hasChange {
        RecordChange(RingEntry(timestamp, groupId % UINT16_LIMIT, entryId % UINT16_LIMIT, PaddedData(source)));
      }
      r := Ok(());
    }

    /** The copy loop of writeData: whether any byte differed from the value buffer. */
    method CopyIntoValues(address: nat, source: seq<byte>) returns (hasChange: bool)
      requires Valid() && address + |source| <= values.Length
      modifies values
      ensures values[..] == Splice(old(values[..]), address, source)
      ensures hasChange <==> old(values[address..address + |source|]) != source
    {
      ghost var before := values[..];
      hasChange := false;
      var i := 0;
      while i < |source|
        invariant 0 <= i <= |source|
        invariant values[..] == Splice(before, address, source[..i])
        invariant hasChange <==> before[address..address + i] != source[..i]
      {
        if values[address + i] != source[i] {
          values[address + i] := source[i];
          hasChange := true;
        }
        assert before[address..address + i + 1] == before[address..address + i] + [before[address + i]];
        assert source[..i + 1] == source[..i] + [source[i]];
        i := i + 1;
      }
      assert source[..i] == source;
    }

    /** The end of writeData after a change: push the entry, or count an overflow when the ring is full. */
    method RecordChange(e: RingEntry)
      requires Valid()
      modifies this, ring
      ensures Valid() && values == old(values) && ring == old(ring)
      ensures old(|Entries()|) < ring.Length - 1 ==> Entries() == old(Entries()) + [e] && overflow == old(overflow)
      ensures old(|Entries()|) == ring.Length - 1 ==> Entries() == old(Entries()) && overflow == (old(overflow) + 1) % UINT32_LIMIT
    {
      RingCapacity(ring[..], head, tail);
      if head != tail {
        var pushed := PushRingBufferEntry(e);
      } else {
        overflow := (overflow + 1) % UINT32_LIMIT;
      }
    }

    /**
     * One turn of the loop of retrieveJournalHistory (Journal.cpp:1115-1121):
     * pop the oldest entry and append its record, the k-th of a reply that
     * started with `before`.
     */
    method SendOldestEntry(response: TcpPacket.CTcpPacketResponse, ghost entries: seq<RingEntry>, ghost before: seq<byte>, ghost k: nat)
      returns (r: Result<()>)
      requires Valid() && response.Valid() && k < |entries|
      requires Entries() == entries[k..] && response.Contents() == before + HistoryRecords(entries[..k])
      modifies this, response`currentSize, response.payload
      ensures Valid() && values == old(values) && ring == old(ring) && overflow == old(overflow)
      ensures response.Valid() && Entries() == entries[k + 1..]
      ensures r.Ok? <==> |before| + |HistoryRecords(entries[..k + 1])| <= TcpPacket.MAX_RESPONSE_SIZE
      ensures r.Ok? ==> response.Contents() == before + HistoryRecords(entries[..k + 1])
      ensures r.Err? ==> r.error == InvalidParam
    {
      var popped := PopRingBufferEntry();
      var e := popped.value;
      assert e == entries[k];
      HistoryRecordsStep(entries, k);
      r := AppendEntryRecord(response, e);
    }

    /**
     * retrieveJournalHistory (Journal.cpp:1111-1122) on the ring: the entry
     * count and the overflow counter, then at most `maxEntries` records.
     */
    method RetrieveHistory(response: TcpPacket.CTcpPacketResponse, maxEntries: nat) returns (r: Result<()>)
      requires Valid() && response.Valid()
      modifies this, response`currentSize, response.payload
      ensures Valid() && values == old(values) && ring == old(ring) && overflow == old(overflow)
      ensures response.Valid()
      ensures var n := if |old(Entries())| < maxEntries then |old(Entries())| else maxEntries;
        var reply := HistoryReply(|old(Entries())| % UINT32_LIMIT, overflow, old(Entries())[..n]);
        && (r.Ok? <==> |old(response.Contents())| + |reply| <= TcpPacket.MAX_RESPONSE_SIZE)
        && (r.Ok? ==> response.Contents() == old(response.Contents()) + reply && Entries() == old(Entries())[n..])
        && (r.Err? ==> r.error == InvalidParam)
    {
      ghost var entries := Entries();
      ghost var n := if |entries| < maxEntries then |entries| else maxEntries;
      var count := GetBufferEntryCount();
      var c: uint32 := count % UINT32_LIMIT;
      var o := overflow;
      ghost var before := response.Contents();
      r := AppendHistoryHeader(response, c, o);
      if r.Err? {
        return;
      }
      r := SendHistory(response, maxEntries);
      ghost var counters, records := EncodeUint32(c) + EncodeUint32(o), HistoryRecords(entries[..n]);
      assert |counters| == 8;
      if r.Ok? {
        AppendedInTurn(before, counters, records);
        assert HistoryReply(c, o, entries[..n]) == counters + records;
      }
    }

    /**
     * The loop of retrieveJournalHistory (Journal.cpp:1114-1122): while the
     * ring is not empty and fewer than `maxEntries` were sent, pop the
     * oldest entry and append its record.
     */
    method SendHistory(response: TcpPacket.CTcpPacketResponse, maxEntries: nat) returns (r: Result<()>)
      requires Valid() && response.Valid()
      modifies this, response`currentSize, response.payload
      ensures Valid() && values == old(values) && ring == old(ring) && overflow == old(overflow)
      ensures response.Valid()
      ensures var n := if |old(Entries())| < maxEntries then |old(Entries())| else maxEntries;
        var records := HistoryRecords(old(Entries())[..n]);
        && (r.Ok? <==> |old(response.Contents())| + |records| <= TcpPacket.MAX_RESPONSE_SIZE)
        && (r.Ok? ==> response.Contents() == old(response.Contents()) + records && Entries() == old(Entries())[n..])
        && (r.Err? ==> r.error == InvalidParam)
    {
      ghost var entries := Entries();
      ghost var before := response.Contents();
      ghost var n := if |entries| < maxEntries then |entries| else maxEntries;
      ghost var k := 0;
      var remaining: nat := maxEntries;
      var empty := RingBufferIsEmpty();
      r := Ok(());
      while !empty && remaining > 0
        invariant Valid() && values == old(values) && ring == old(ring) && overflow == old(overflow)
        invariant response.Valid()
        invariant k + remaining == maxEntries && k <= |entries|
        invariant Entries() == entries[k..]
        invariant empty <==> k == |entries|
        invariant response.Contents() == before + HistoryRecords(entries[..k])
        invariant r.Ok?
        decreases remaining
      {
        r := SendOldestEntry(response, entries, before, k);
        if r.Err? {
          HistoryRecordsPrefix(entries, k + 1, n);
          return;
        }
        k := k + 1;
        remaining := remaining - 1;
        empty := RingBufferIsEmpty();
      }
      assert k == n;
    }
  }

  // ---------------------------------------------------------------------
  // The reply of retrieveJournalHistory
  // ---------------------------------------------------------------------

  /**
   * The bytes retrieveJournalHistory appends for one popped entry
   * (Journal.cpp:1116-1119): addUint32 of the 64-bit timestamp, which keeps
   * its low 32 bits, addUint16 of the group ID and of the entry ID, then the
   * entry's value buffer.
   */
  function EntryRecord(e: RingEntry): (r: seq<byte>)
    ensures |r| == 8 + |e.data|
  {
    EncodeUint32(e.timestamp % UINT32_LIMIT) + EncodeUint16(e.groupId) + EncodeUint16(e.entryId) + e.data
  }

  /** A client decodes the timestamp's low 32 bits, the group ID, the entry ID and the value from a record. */
  lemma EntryRecordFields(e: RingEntry)
    ensures var r := EntryRecord(e);
      && DecodeLE(r[..4]) == e.timestamp % UINT32_LIMIT
      && DecodeLE(r[4..6]) == e.groupId && DecodeLE(r[6..8]) == e.entryId
      && r[8..] == e.data
  {
    var t := EncodeUint32(e.timestamp % UINT32_LIMIT);
    var g := EncodeUint16(e.groupId);
    var n := EncodeUint16(e.entryId);
    var r := EntryRecord(e);
    assert r == t + g + n + e.data;
    assert r[..4] == t && r[4..6] == g && r[6..8] == n && r[8..] == e.data;
  }

  /** The records of the popped entries, in the order they were popped. */
  function HistoryRecords(records: seq<RingEntry>): (r: seq<byte>)
  {
    if records == [] then []
    else HistoryRecords(records[..|records| - 1]) + EntryRecord(records[|records| - 1])
  }

  /**
   * The whole reply (Journal.cpp:1111-1120): the entry count and the
   * overflow counter as uint32, then the records.
   */
  function HistoryReply(count: uint32, overflowCount: uint32, records: seq<RingEntry>): (r: seq<byte>)
    ensures |r| == 8 + |HistoryRecords(records)|
  {
    EncodeUint32(count) + EncodeUint32(overflowCount) + HistoryRecords(records)
  }

  /** A client decodes the entry count, the overflow counter and the records from a reply. */
  lemma HistoryReplyFields(count: uint32, overflowCount: uint32, records: seq<RingEntry>)
    ensures var r := HistoryReply(count, overflowCount, records);
      DecodeLE(r[..4]) == count && DecodeLE(r[4..8]) == overflowCount && r[8..] == HistoryRecords(records)
  {
    var c := EncodeUint32(count);
    var o := EncodeUint32(overflowCount);
    var r := HistoryReply(count, overflowCount, records);
    assert r[..4] == c && r[4..8] == o && r[8..] == HistoryRecords(records);
  }

  /** The two counters retrieveJournalHistory appends first (Journal.cpp:1111-1112). */
  method AppendHistoryHeader(response: TcpPacket.CTcpPacketResponse, count: uint32, overflowCount: uint32) returns (r: Result<()>)
    requires response.Valid()
    modifies response`currentSize, response.payload
    ensures response.Valid()
    ensures r.Ok? <==> |old(response.Contents())| + 8 <= TcpPacket.MAX_RESPONSE_SIZE
    ensures r.Ok? ==> response.Contents() == old(response.Contents()) + (EncodeUint32(count) + EncodeUint32(overflowCount))
    ensures r.Err? ==> r.error == InvalidParam
  {
    ghost var before := response.Contents();
    r := response.AddUint32(count);
    if r.Err? {
      return;
    }
    r := response.AddUint32(overflowCount);
    if r.Ok? {
      AppendedInTurn(before, EncodeUint32(count), EncodeUint32(overflowCount));
    }
  }

  /** The record of one popped entry, appended piece by piece (Journal.cpp:1116-1119). */
  method AppendEntryRecord(response: TcpPacket.CTcpPacketResponse, e: RingEntry) returns (r: Result<()>)
    requires response.Valid()
    modifies response`currentSize, response.payload
    ensures response.Valid()
    ensures r.Ok? <==> |old(response.Contents())| + |EntryRecord(e)| <= TcpPacket.MAX_RESPONSE_SIZE
    ensures r.Ok? ==> response.Contents() == old(response.Contents()) + EntryRecord(e)
    ensures r.Err? ==> r.error == InvalidParam
  {
    ghost var before := response.Contents();
    ghost var t, g, n := EncodeUint32(e.timestamp % UINT32_LIMIT), EncodeUint16(e.groupId), EncodeUint16(e.entryId);
    r := response.AddUint32(e.timestamp % UINT32_LIMIT);
    if r.Err? {
      return;
    }
    r := response.AddUint16(e.groupId);
    if r.Err? {
      return;
    }
    AppendedInTurn(before, t, g);
    r := response.AddUint16(e.entryId);
    if r.Err? {
      return;
    }
    AppendedInTurn(before, t + g, n);
    r := response.AddPayload(Some(e.data));
    AppendedInTurn(before, t + g + n, e.data);
  }

  /** Appending to a response piece by piece appends the pieces' concatenation. */
  lemma AppendedInTurn(before: seq<byte>, first: seq<byte>, second: seq<byte>)
    ensures (before + first) + second == before + (first + second)
  {
  }

  /** Popping the k-th entry extends the records of the first k by that entry's record. */
  lemma HistoryRecordsStep(entries: seq<RingEntry>, k: nat)
    requires k < |entries|
    ensures HistoryRecords(entries[..k + 1]) == HistoryRecords(entries[..k]) + EntryRecord(entries[k])
  {
    assert entries[..k + 1] == entries[..k] + [entries[k]];
    HistoryRecordsExtend(entries[..k], entries[k]);
  }

  /** Popping one more entry extends the records by that entry's record. */
  lemma HistoryRecordsExtend(records: seq<RingEntry>, e: RingEntry)
    ensures HistoryRecords(records + [e]) == HistoryRecords(records) + EntryRecord(e)
  {
    var rs := records + [e];
    assert rs != [] && rs[..|rs| - 1] == records && rs[|rs| - 1] == e;
  }

  /** The records of two runs of entries are the records of the first, then those of the second. */
  lemma {:induction false} HistoryRecordsConcat(a: seq<RingEntry>, b: seq<RingEntry>)
    ensures HistoryRecords(a + b) == HistoryRecords(a) + HistoryRecords(b)
    decreases |b|
  {
    if b == [] {
      assert a + b == a;
    } else {
      var b', last := b[..|b| - 1], b[|b| - 1];
      assert b == b' + [last];
      assert a + b == (a + b') + [last];
      HistoryRecordsConcat(a, b');
      HistoryRecordsExtend(a + b', last);
      HistoryRecordsExtend(b', last);
    }
  }

  /**
   * The record of the k-th popped entry sits right after the records of the
   * entries popped before it, so a client reads the reply entry by entry.
   */
  lemma {:induction false} HistoryRecordAt(records: seq<RingEntry>, k: nat)
    requires k < |records|
    ensures HistoryRecords(records) == HistoryRecords(records[..k]) + EntryRecord(records[k]) + HistoryRecords(records[k + 1..])
  {
    var front, one, back := records[..k], [records[k]], records[k + 1..];
    assert records == (front + one) + back;
    assert HistoryRecords(one) == EntryRecord(records[k]) by {
      assert one[..0] == [];
    }
    HistoryRecordsConcat(front + one, back);
    HistoryRecordsConcat(front, one);
  }

  /** With every value buffer JOURNAL_MAXENTRYSIZE bytes long, as writeData records them, each record takes 16 bytes. */
  lemma {:induction false} HistoryRecordsLength(records: seq<RingEntry>)
    requires forall i :: 0 <= i < |records| ==> |records[i].data| == JOURNAL_MAXENTRYSIZE
    ensures |HistoryRecords(records)| == 16 * |records|
    decreases |records|
  {
    if records != [] {
      HistoryRecordsLength(records[..|records| - 1]);
    }
  }

  /** The records of the first j entries are no longer than those of the first n. */
  lemma {:induction false} HistoryRecordsPrefix(entries: seq<RingEntry>, j: nat, n: nat)
    requires j <= n <= |entries|
    ensures |HistoryRecords(entries[..j])| <= |HistoryRecords(entries[..n])|
  {
    assert entries[..n] == entries[..j] + entries[j..n];
    HistoryRecordsConcat(entries[..j], entries[j..n]);
  }


  /** The constructor's argument checks (Journal.cpp:207-210). */
  method NewJournalData(valueSize: nat, ringSize: nat, filler: RingEntry) returns (r: Result<JournalData>)
    ensures r.Err? <==> valueSize == 0 || ringSize == 0
    ensures r.Err? ==> r.error == InvalidParam
    ensures r.Ok? ==> (r.value.Valid() && fresh(r.value) && r.value.values.Length == valueSize
      && r.value.ring.Length == ringSize && r.value.Entries() == [])
  {
    if valueSize == 0 || ringSize == 0 {
      return Err(InvalidParam);
    }
    var d := new JournalData(valueSize, ringSize, filler);
    r := Ok(d);
  }
}
