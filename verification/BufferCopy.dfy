/** Copying between sequences of buffers that are regions of one memory. */
module BufferCopying {
  import opened Arithmetic

  /** A buffer: where it starts in memory and how many bytes it has. */
  datatype Buffer = Buffer(start: nat, size: nat)

  /** The buffer without its first n bytes, or the empty buffer when it has fewer. */
  function Skip(b: Buffer, n: nat): Buffer {
    if n > b.size then Buffer(0, 0) else Buffer(b.start + n, b.size - n)
  }

  function Size(buffers: seq<Buffer>): nat {
    if buffers == [] then 0 else Size(buffers[..|buffers| - 1]) + buffers[|buffers| - 1].size
  }

  predicate InMemory(buffers: seq<Buffer>, memory: nat) {
    forall i :: 0 <= i < |buffers| ==> buffers[i].start + buffers[i].size <= memory
  }

  /** The memory addresses of the flattened bytes, in order. */
  function Addresses(buffers: seq<Buffer>): seq<nat> {
    if buffers == [] then []
    else
      var b := buffers[|buffers| - 1];
      Addresses(buffers[..|buffers| - 1]) + seq(b.size, k requires 0 <= k => b.start + k)
  }

  lemma {:induction false} AddressesLength(buffers: seq<Buffer>)
    ensures |Addresses(buffers)| == Size(buffers)
  {
    if buffers != [] {
      AddressesLength(buffers[..|buffers| - 1]);
    }
  }

  predicate WithinMemory(addresses: seq<nat>, memory: nat) {
    forall k :: 0 <= k < |addresses| ==> addresses[k] < memory
  }

  lemma {:induction false} AddressesInMemory(buffers: seq<Buffer>, memory: nat)
    requires InMemory(buffers, memory)
    ensures WithinMemory(Addresses(buffers), memory)
  {
    if buffers != [] {
      AddressesInMemory(buffers[..|buffers| - 1], memory);
      assert buffers[|buffers| - 1].start + buffers[|buffers| - 1].size <= memory;
    }
  }

  /** Byte p of buffer i has the address that follows the bytes of the buffers before it. */
  lemma {:induction false} AddressAt(buffers: seq<Buffer>, i: nat, p: nat)
    requires i < |buffers| && p < buffers[i].size
    ensures Size(buffers[..i]) + p < |Addresses(buffers)|
    ensures Addresses(buffers)[Size(buffers[..i]) + p] == buffers[i].start + p
  {
    var front := buffers[..|buffers| - 1];
    if i < |front| {
      AddressAt(front, i, p);
      assert front[..i] == buffers[..i];
    } else {
      AddressesLength(front);
    }
  }

  lemma {:induction false} SizeSteps(buffers: seq<Buffer>, i: nat)
    requires i < |buffers|
    ensures Size(buffers[..i + 1]) == Size(buffers[..i]) + buffers[i].size <= Size(buffers)
    decreases |buffers|
  {
    assert buffers[..i + 1][..i] == buffers[..i];
    if i + 1 == |buffers| {
      assert buffers[..i + 1] == buffers;
    } else {
      var front := buffers[..|buffers| - 1];
      SizeSteps(front, i);
      assert front[..i + 1] == buffers[..i + 1] && front[..i] == buffers[..i];
    }
  }

  /** No target byte is another target byte or a source byte. */
  predicate Apart(target: seq<nat>, source: seq<nat>) {
    && (forall j, k :: 0 <= j < k < |target| ==> target[j] != target[k])
    && (forall j, k :: 0 <= j < |target| && 0 <= k < |source| ==> target[j] != source[k])
  }

  /** Memory after the first n flattened bytes were copied: they are in place, all else is as before. */
  predicate Copied<T(==)>(before: seq<T>, after: seq<T>, target: seq<nat>, source: seq<nat>, n: nat)
    requires n <= |target| && n <= |source| && |before| == |after|
    requires WithinMemory(target, |before|) && WithinMemory(source, |before|)
  {
    && (forall k :: 0 <= k < n ==> after[target[k]] == before[source[k]])
    && (forall a :: 0 <= a < |before| && a !in target[..n] ==> after[a] == before[a])
  }

  /** Copying the next c bytes extends what was copied. */
  lemma CopiedFurther<T>(before: seq<T>, mid: seq<T>, after: seq<T>, target: seq<nat>, source: seq<nat>, n: nat, c: nat)
    requires |before| == |mid| == |after| && n + c <= |target| && n + c <= |source|
    requires WithinMemory(target, |before|) && WithinMemory(source, |before|)
    requires Apart(target, source) && Copied(before, mid, target, source, n)
    requires forall k :: n <= k < n + c ==> after[target[k]] == mid[source[k]]
    requires forall a :: 0 <= a < |before| && a !in target[n..n + c] ==> after[a] == mid[a]
    ensures Copied(before, after, target, source, n + c)
  {
    forall k | 0 <= k < n + c
      ensures after[target[k]] == before[source[k]]
    {
      assert source[k] !in target[..n];
      if k < n {
        assert target[k] !in target[n..n + c];
      }
    }
    forall a | 0 <= a < |before| && a !in target[..n + c]
      ensures after[a] == before[a]
    {
      assert target[..n + c] == target[..n] + target[n..n + c];
    }
  }

  /** The buffer holds the addresses from position n on. */
  predicate Holds(addresses: seq<nat>, n: nat, b: Buffer) {
    && n + b.size <= |addresses|
    && forall k :: n <= k < n + b.size ==> addresses[k] == b.start + (k - n)
  }

  lemma NothingCopied<T>(memory: seq<T>, target: seq<nat>, source: seq<nat>)
    requires WithinMemory(target, |memory|) && WithinMemory(source, |memory|)
    ensures Copied(memory, memory, target, source, 0)
    ensures Size([]) == 0
  {
  }

  /** A run of bytes inside one buffer is a run of addresses. */
  lemma AddressRun(buffers: seq<Buffer>, i: nat, offset: nat, n: nat)
    requires i < |buffers| && offset <= buffers[i].size && n == Size(buffers[..i]) + offset
    ensures Holds(Addresses(buffers), n, Skip(buffers[i], offset))
  {
    SizeSteps(buffers, i);
    AddressesLength(buffers);
    forall k | n <= k < n + (buffers[i].size - offset)
      ensures Addresses(buffers)[k] == buffers[i].start + offset + (k - n)
    {
      AddressAt(buffers, i, offset + (k - n));
    }
  }

  predicate Disjoint(a: Buffer, b: Buffer) {
    a.size == 0 || b.size == 0 || a.start + a.size <= b.start || b.start + b.size <= a.start
  }

  /** One buffer to another, at most `limit` bytes: memcpy. */
  method CopyBuffer<T>(memory: array<T>, target: Buffer, source: Buffer, limit: nat) returns (copied: nat)
    requires target.start + target.size <= memory.Length && source.start + source.size <= memory.Length
    requires Disjoint(target, source)
    modifies memory
    ensures copied == Min(limit, Min(target.size, source.size))
    ensures forall a :: target.start <= a < target.start + copied ==>
              memory[a] == old(memory[source.start + (a - target.start)])
    ensures forall a :: 0 <= a < memory.Length && !(target.start <= a < target.start + copied) ==>
              memory[a] == old(memory[a])
  {
    copied := Min(limit, Min(target.size, source.size));
    forall j | 0 <= j < copied {
      memory[target.start + j] := memory[source.start + j];
    }
  }

  lemma RunsApart(target: seq<nat>, source: seq<nat>, n: nat, t: Buffer, s: Buffer)
    requires Apart(target, source) && Holds(target, n, t) && Holds(source, n, s)
    ensures Disjoint(t, s)
  {
    var x := if t.start < s.start then s.start else t.start;
    assert t.start <= x < t.start + t.size ==> target[n + (x - t.start)] == x;
    assert s.start <= x < s.start + s.size ==> source[n + (x - s.start)] == x;
  }

  lemma CopiedRun<T>(mid: seq<T>, after: seq<T>, target: seq<nat>, source: seq<nat>, n: nat, t: Buffer, s: Buffer,
                     c: nat)
    requires Holds(target, n, t) && Holds(source, n, s) && c <= t.size && c <= s.size
    requires |mid| == |after| && t.start + t.size <= |mid| && s.start + s.size <= |mid|
    requires forall a :: t.start <= a < t.start + c ==> after[a] == mid[s.start + (a - t.start)]
    requires forall a :: 0 <= a < |mid| && !(t.start <= a < t.start + c) ==> after[a] == mid[a]
    ensures forall k :: n <= k < n + c ==> target[k] < |mid| && source[k] < |mid| && after[target[k]] == mid[source[k]]
    ensures forall a :: 0 <= a < |mid| && a !in target[n..n + c] ==> after[a] == mid[a]
  {
    forall k | n <= k < n + c
      ensures target[k] < |mid| && source[k] < |mid| && after[target[k]] == mid[source[k]]
    {
      assert after[t.start + (k - n)] == mid[s.start + (k - n)];
    }
    forall a | 0 <= a < |mid| && a !in target[n..n + c]
      ensures after[a] == mid[a]
    {
      if t.start <= a < t.start + c {
        assert target[n..n + c][a - t.start] == a;
      }
    }
  }

  /** Copies the next run: what is in the two buffers from flattened position n on. */
  method CopyRun<T>(memory: array<T>, target: Buffer, source: Buffer, limit: nat, ghost before: seq<T>,
                    ghost targets: seq<nat>, ghost sources: seq<nat>, ghost n: nat)
    returns (copied: nat)
    requires target.start + target.size <= memory.Length && source.start + source.size <= memory.Length
    requires |before| == memory.Length
    requires WithinMemory(targets, memory.Length) && WithinMemory(sources, memory.Length)
    requires Apart(targets, sources) && Holds(targets, n, target) && Holds(sources, n, source)
    requires Copied(before, memory[..], targets, sources, n)
    modifies memory
    ensures copied == Min(limit, Min(target.size, source.size))
    ensures n + copied <= |targets| && n + copied <= |sources|
    ensures Copied(before, memory[..], targets, sources, n + copied)
  {
    ghost var mid := memory[..];
    RunsApart(targets, sources, n, target, source);
    copied := CopyBuffer(memory, target, source, limit);
    CopiedRun(mid, memory[..], targets, sources, n, target, source, copied);
    CopiedFurther(before, mid, memory[..], targets, sources, n, copied);
  }

  /** Sequence to sequence, at most `limit` bytes. */
  method BufferCopy<T(==)>(memory: array<T>, target: seq<Buffer>, source: seq<Buffer>, limit: nat) returns (total: nat)
    requires InMemory(target, memory.Length) && InMemory(source, memory.Length)
    requires Apart(Addresses(target), Addresses(source))
    modifies memory
    ensures total == Min(limit, Min(Size(target), Size(source)))
    ensures |Addresses(target)| == Size(target) && |Addresses(source)| == Size(source)
    ensures WithinMemory(Addresses(target), memory.Length) && WithinMemory(Addresses(source), memory.Length)
    ensures Copied(old(memory[..]), memory[..], Addresses(target), Addresses(source), total)
  {
    ghost var to, from := Addresses(target), Addresses(source);
    AddressesLength(target);
    AddressesLength(source);
    AddressesInMemory(target, memory.Length);
    AddressesInMemory(source, memory.Length);
    hide Copied, Apart, Holds, Addresses, Size, WithinMemory;
    total := 0;
    NothingCopied(memory[..], to, from);
    var t: nat, tOffset: nat := 0, 0;
    var s: nat, sOffset: nat := 0, 0;
    assert target[..0] == [] && source[..0] == [];
    while total != limit && t != |target| && s != |source|
      invariant t <= |target| && s <= |source|
      invariant if t < |target| then tOffset <= target[t].size else tOffset == 0
      invariant if s < |source| then sOffset <= source[s].size else sOffset == 0
      invariant total == Size(target[..t]) + tOffset == Size(source[..s]) + sOffset <= limit
      invariant total <= |to| && total <= |from|
      invariant Copied(old(memory[..]), memory[..], to, from, total)
      decreases |target| - t + |source| - s, limit - total
    {
      SizeSteps(target, t);
      SizeSteps(source, s);
      AddressRun(target, t, tOffset, total);
      AddressRun(source, s, sOffset, total);
      var targetBuffer, sourceBuffer := Skip(target[t], tOffset), Skip(source[s], sOffset);
      var copied := CopyRun(memory, targetBuffer, sourceBuffer, limit - total, old(memory[..]), to, from, total);
      total := total + copied;
      if copied == targetBuffer.size {
        t, tOffset := t + 1, 0;
      } else {
        tOffset := tOffset + copied;
      }
      if copied == sourceBuffer.size {
        s, sOffset := s + 1, 0;
      } else {
        sOffset := sOffset + copied;
      }
    }
    assert target[..|target|] == target && source[..|source|] == source;
  }

  /** The flattened bytes behind a list of addresses. */
  function Bytes<T>(memory: seq<T>, addresses: seq<nat>): seq<T>
    requires WithinMemory(addresses, |memory|)
  {
    seq(|addresses|, k requires 0 <= k < |addresses| => memory[addresses[k]])
  }

  /** In flattened terms: the copied prefix of the target equals the source's, the rest of the target and
      all of the source are as they were. */
  lemma CopiedFlat<T>(before: seq<T>, after: seq<T>, target: seq<nat>, source: seq<nat>, n: nat)
    requires n <= |target| && n <= |source| && |before| == |after|
    requires WithinMemory(target, |before|) && WithinMemory(source, |before|)
    requires Apart(target, source) && Copied(before, after, target, source, n)
    ensures Bytes(after, target) == Bytes(before, source)[..n] + Bytes(before, target)[n..]
    ensures Bytes(after, source) == Bytes(before, source)
  {
    forall k | n <= k < |target|
      ensures Bytes(after, target)[k] == Bytes(before, target)[k]
    {
      assert target[k] !in target[..n];
    }
    forall k | 0 <= k < |source|
      ensures Bytes(after, source)[k] == Bytes(before, source)[k]
    {
      assert source[k] !in target[..n];
    }
  }
}
