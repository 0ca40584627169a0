/** One TCP connection through the panel: sniff, decide, replay, copy (sniffTCP, handleTCP and pump in relay.go). */
module Streams {
  import opened Detection
  import opened Stores

  /** One Read call: the bytes it returned and whether it also returned an error. */
  datatype Read = Read(data: seq<byte>, failed: bool)

  const SNIFF := 148
  const CHUNK := 32 * 1024

  function Data(rs: seq<Read>): seq<byte> {
    if rs == [] then [] else Data(rs[..|rs| - 1]) + rs[|rs| - 1].data
  }

  /** The reads up to and including the first that fails. */
  function UpToFailure(rs: seq<Read>): seq<Read> {
    if rs == [] then [] else if rs[0].failed then [rs[0]] else [rs[0]] + UpToFailure(rs[1..])
  }

  lemma DataOfOneMore(rs: seq<Read>, i: nat)
    requires i < |rs|
    ensures Data(rs[..i + 1]) == Data(rs[..i]) + rs[i].data
  {
    assert rs[..i + 1][..i] == rs[..i];
  }

  /** How many reads the sniffer makes: until 148 bytes are there, or after a read that brings nothing but an error. */
  function Sniffed(rs: seq<Read>, i: nat): nat
    requires i <= |rs|
    decreases |rs| - i
  {
    if |Data(rs[..i])| >= SNIFF || i == |rs| then i
    else if rs[i] == Read([], true) then i + 1
    else Sniffed(rs, i + 1)
  }

  /** Reads until 148 bytes are there or a read brings nothing but an error; a list that runs out is such a read. */
  method Sniff(rs: seq<Read>) returns (buf: seq<byte>, proto: Protocol, used: nat)
    requires forall i :: 0 <= i < |rs| ==> |rs[i].data| <= SNIFF
    ensures used == Sniffed(rs, 0) <= |rs| && buf == Data(rs[..used]) && |buf| <= 295
    ensures |buf| >= SNIFF || used == |rs| || (used > 0 && rs[used - 1] == Read([], true))
    ensures forall i :: 0 <= i < used ==> |Data(rs[..i])| < SNIFF
    ensures forall i :: 0 <= i < used - 1 ==> rs[i] != Read([], true)
    ensures proto == Detect(buf)
  {
    buf, used := [], 0;
    assert Data(rs[..0]) == [];
    hide Data, Detect;
    while |buf| < SNIFF && used < |rs|
      invariant used <= |rs| && buf == Data(rs[..used]) && |buf| <= 295
      invariant Sniffed(rs, 0) == Sniffed(rs, used)
      invariant forall i :: 0 <= i < used ==> |Data(rs[..i])| < SNIFF
      invariant forall i :: 0 <= i < used ==> rs[i] != Read([], true)
    {
      var r := rs[used];
      DataOfOneMore(rs, used);
      used := used + 1;
      if |r.data| > 0 {
        buf := buf + r.data;
      } else if r.failed {
        break;
      }
    }
    proto := Detect(buf);
  }

  /** What one copy loop did: the bytes it passed on, the bytes it counted, and whether every write took all it was given. */
  datatype Copy = Copy(sent: seq<byte>, counted: nat, complete: bool)

  /** The copy loop from read `i` on, after `looks` looks at the flag and `writes` writes. */
  function Copying(rs: seq<Read>, killed: nat -> bool, room: nat -> nat, i: nat, looks: nat, writes: nat): Copy
    requires i <= |rs|
    decreases |rs| - i
  {
    if killed(looks) || i == |rs| then Copy([], 0, true)
    else
      var data, failed := rs[i].data, rs[i].failed;
      if data == [] then if failed then Copy([], 0, true) else Copying(rs, killed, room, i + 1, looks + 1, writes)
      else if killed(looks + 1) then Copy([], 0, true)
      else if room(writes) < |data| then Copy(data[..room(writes)], |data|, false)
      else if failed then Copy(data, |data|, true)
      else Before(data, Copying(rs, killed, room, i + 1, looks + 2, writes + 1))
  }

  function Before(data: seq<byte>, c: Copy): Copy {
    Copy(data + c.sent, |data| + c.counted, c.complete)
  }

  /** One round of the loop. */
  lemma OneStep(rs: seq<Read>, killed: nat -> bool, room: nat -> nat, i: nat, looks: nat, writes: nat)
    requires i <= |rs|
    ensures killed(looks) || i == |rs| ==> Copying(rs, killed, room, i, looks, writes) == Copy([], 0, true)
    ensures !killed(looks) && i < |rs| && rs[i].data == [] ==>
              Copying(rs, killed, room, i, looks, writes)
              == if rs[i].failed then Copy([], 0, true) else Copying(rs, killed, room, i + 1, looks + 1, writes)
    ensures !killed(looks) && i < |rs| && rs[i].data != [] ==>
              Copying(rs, killed, room, i, looks, writes)
              == if killed(looks + 1) then Copy([], 0, true)
                 else if room(writes) < |rs[i].data| then Copy(rs[i].data[..room(writes)], |rs[i].data|, false)
                 else if rs[i].failed then Copy(rs[i].data, |rs[i].data|, true)
                 else Before(rs[i].data, Copying(rs, killed, room, i + 1, looks + 2, writes + 1))
  {
  }

  lemma {:induction false} DataFromFront(rs: seq<Read>)
    requires rs != []
    ensures Data(rs) == rs[0].data + Data(rs[1..])
  {
    var n := |rs| - 1;
    if n > 0 {
      DataFromFront(rs[..n]);
      assert rs[..n][1..] == rs[1..][..n - 1];
    }
  }

  lemma RestFromFront(rs: seq<Read>, i: nat)
    requires i < |rs|
    ensures rs[i..] == [rs[i]] + rs[i + 1..] && Data(rs[i..]) == rs[i].data + Data(rs[i + 1..])
    ensures Data(UpToFailure(rs[i..])) == rs[i].data + if rs[i].failed then [] else Data(UpToFailure(rs[i + 1..]))
  {
    DataFromFront(rs[i..]);
    assert rs[i..][1..] == rs[i + 1..];
    DataFromFront(UpToFailure(rs[i..]));
    if rs[i].failed {
      assert UpToFailure(rs[i..])[1..] == [];
    } else {
      assert UpToFailure(rs[i..])[1..] == UpToFailure(rs[i + 1..]);
    }
  }

  /** What is passed on is a prefix of what is left to read. */
  lemma {:induction false} CopyIsPrefix(rs: seq<Read>, killed: nat -> bool, room: nat -> nat, i: nat, looks: nat, writes: nat)
    requires i <= |rs|
    ensures Copying(rs, killed, room, i, looks, writes).sent <= Data(rs[i..])
    decreases |rs| - i
  {
    OneStep(rs, killed, room, i, looks, writes);
    hide Copying;
    if i < |rs| {
      hide Data, UpToFailure;
      CopyIsPrefix(rs, killed, room, i + 1, looks + 1, writes);
      CopyIsPrefix(rs, killed, room, i + 1, looks + 2, writes + 1);
      RestFromFront(rs, i);
    }
  }

  /** The count runs ahead of the bytes passed on by at most the one read whose write failed. */
  lemma {:induction false} CopyCounts(rs: seq<Read>, killed: nat -> bool, room: nat -> nat, i: nat, looks: nat, writes: nat)
    requires i <= |rs| && forall k :: 0 <= k < |rs| ==> |rs[k].data| <= CHUNK
    ensures var c := Copying(rs, killed, room, i, looks, writes);
            if c.complete then c.counted == |c.sent| else c.counted - CHUNK <= |c.sent| < c.counted
    decreases |rs| - i
  {
    OneStep(rs, killed, room, i, looks, writes);
    hide Copying;
    if i < |rs| {
      CopyCounts(rs, killed, room, i + 1, looks + 1, writes);
      CopyCounts(rs, killed, room, i + 1, looks + 2, writes + 1);
    }
  }

  lemma {:induction false} RoomyCopyIsComplete(rs: seq<Read>, killed: nat -> bool, room: nat -> nat, i: nat, looks: nat, writes: nat)
    requires i <= |rs| && (forall k :: 0 <= k < |rs| ==> |rs[k].data| <= CHUNK) && forall w :: room(w) >= CHUNK
    ensures Copying(rs, killed, room, i, looks, writes).complete
    decreases |rs| - i
  {
    OneStep(rs, killed, room, i, looks, writes);
    hide Copying;
    if i < |rs| {
      RoomyCopyIsComplete(rs, killed, room, i + 1, looks + 1, writes);
      RoomyCopyIsComplete(rs, killed, room, i + 1, looks + 2, writes + 1);
      assert room(writes) >= CHUNK;
    }
  }

  /** With no kill and no failing write, everything up to the first read error is passed on. */
  lemma {:induction false} CopyIsWhole(rs: seq<Read>, killed: nat -> bool, room: nat -> nat, i: nat, looks: nat, writes: nat)
    requires i <= |rs| && (forall k :: 0 <= k < |rs| ==> |rs[k].data| <= CHUNK)
    requires (forall k :: !killed(k)) && forall w :: room(w) >= CHUNK
    ensures Copying(rs, killed, room, i, looks, writes).sent == Data(UpToFailure(rs[i..]))
    decreases |rs| - i
  {
    OneStep(rs, killed, room, i, looks, writes);
    if i < |rs| {
      assert !killed(looks) && !killed(looks + 1) && room(writes) >= |rs[i].data|;
      RestFromFront(rs, i);
      hide Copying, Data, UpToFailure;
      if !rs[i].failed {
        if rs[i].data == [] {
          CopyIsWhole(rs, killed, room, i + 1, looks + 1, writes);
        } else {
          CopyIsWhole(rs, killed, room, i + 1, looks + 2, writes + 1);
        }
      }
    }
  }

  // ---------- where a copy loop stops ----------

  /** How many of the first `m` reads brought something. */
  function Filled(rs: seq<Read>, m: nat): (n: nat)
    requires m <= |rs|
    ensures n <= m
  {
    if m == 0 then 0 else Filled(rs, m - 1) + if rs[m - 1].data != [] then 1 else 0
  }

  /** The flag is looked at before each read, and again after one that brought something. */
  function LooksFor(rs: seq<Read>, m: nat): nat
    requires m <= |rs|
  {
    m + Filled(rs, m)
  }

  /** The first `m` reads are made and passed on whole: no read before the last of them failed, no look found the flag set,
      and every write took all it was given. */
  ghost predicate Through(rs: seq<Read>, killed: nat -> bool, room: nat -> nat, m: nat) {
    && m <= |rs| && (forall j :: 0 <= j < m - 1 ==> !rs[j].failed)
    && (forall k: nat :: k < LooksFor(rs, m) ==> !killed(k))
    && (forall j :: 0 <= j < m && rs[j].data != [] ==> room(Filled(rs, j)) >= |rs[j].data|)
  }

  /** After `m` whole reads the next one brings something, which a failing write takes part of. */
  ghost predicate CutShort(rs: seq<Read>, killed: nat -> bool, room: nat -> nat, m: nat) {
    && m < |rs| && (m > 0 ==> !rs[m - 1].failed) && rs[m].data != []
    && (forall k: nat :: k < LooksFor(rs, m + 1) ==> !killed(k)) && room(Filled(rs, m)) < |rs[m].data|
  }

  /** As many reads go through as can, the last write may be cut short, and nothing else is passed on or counted. */
  ghost predicate StopsAt(c: Copy, rs: seq<Read>, killed: nat -> bool, room: nat -> nat, m: nat) {
    && Through(rs, killed, room, m) && (forall n :: m < n <= |rs| ==> !Through(rs, killed, room, n))
    && (c.complete <==> !CutShort(rs, killed, room, m))
    && (if c.complete then c.sent == Data(rs[..m]) && c.counted == |c.sent|
        else c.sent == Data(rs[..m]) + rs[m].data[..room(Filled(rs, m))] && c.counted == |Data(rs[..m + 1])|)
  }

  lemma OneMoreRead(rs: seq<Read>, i: nat)
    requires i < |rs|
    ensures Filled(rs, i + 1) == Filled(rs, i) + if rs[i].data != [] then 1 else 0
    ensures LooksFor(rs, i + 1) == LooksFor(rs, i) + if rs[i].data != [] then 2 else 1
  {
  }

  lemma {:induction false} MoreLooks(rs: seq<Read>, i: nat, n: nat)
    requires i <= n <= |rs|
    ensures LooksFor(rs, i) <= LooksFor(rs, n)
  {
    if i < n { MoreLooks(rs, i, n - 1); }
  }

  lemma ThroughLess(rs: seq<Read>, killed: nat -> bool, room: nat -> nat, m: nat, n: nat)
    requires m <= n && Through(rs, killed, room, n)
    ensures Through(rs, killed, room, m)
  {
    hide LooksFor, Filled;
    MoreLooks(rs, m, n);
  }

  /** What the next read needs to go through as well. */
  lemma ThroughNext(rs: seq<Read>, killed: nat -> bool, room: nat -> nat, i: nat)
    requires i < |rs| && Through(rs, killed, room, i) && (i > 0 ==> !rs[i - 1].failed)
    ensures Through(rs, killed, room, i + 1)
       <==> !killed(LooksFor(rs, i)) && (rs[i].data != [] ==> !killed(LooksFor(rs, i) + 1) && room(Filled(rs, i)) >= |rs[i].data|)
  {
    hide LooksFor, Filled;
    OneMoreRead(rs, i);
    if Through(rs, killed, room, i + 1) { assert LooksFor(rs, i) < LooksFor(rs, i + 1); }
  }

  lemma ShortNext(rs: seq<Read>, killed: nat -> bool, room: nat -> nat, i: nat)
    requires i < |rs| && Through(rs, killed, room, i) && (i > 0 ==> !rs[i - 1].failed)
    ensures CutShort(rs, killed, room, i)
       <==> rs[i].data != [] && !killed(LooksFor(rs, i)) && !killed(LooksFor(rs, i) + 1) && room(Filled(rs, i)) < |rs[i].data|
  {
    hide LooksFor, Filled;
    OneMoreRead(rs, i);
    if CutShort(rs, killed, room, i) { assert LooksFor(rs, i) < LooksFor(rs, i + 1); }
  }

  lemma OnlyUpTo(rs: seq<Read>, killed: nat -> bool, room: nat -> nat, m: nat)
    requires m < |rs| ==> !Through(rs, killed, room, m + 1)
    ensures forall n :: m < n <= |rs| ==> !Through(rs, killed, room, n)
  {
    hide Through;
    forall n | m < n <= |rs| ensures !Through(rs, killed, room, n) {
      if Through(rs, killed, room, n) { ThroughLess(rs, killed, room, m + 1, n); }
    }
  }

  lemma StopsHere(rs: seq<Read>, killed: nat -> bool, room: nat -> nat, i: nat)
    requires Through(rs, killed, room, i) && (i > 0 ==> !rs[i - 1].failed)
    requires i < |rs| ==> !Through(rs, killed, room, i + 1)
    ensures StopsAt(Before(Data(rs[..i]), Copying(rs, killed, room, i, LooksFor(rs, i), Filled(rs, i))), rs, killed, room, i)
  {
    assert i <= |rs|;
    hide LooksFor, Filled, Through, CutShort, Data, Copying;
    OneStep(rs, killed, room, i, LooksFor(rs, i), Filled(rs, i));
    OnlyUpTo(rs, killed, room, i);
    if i < |rs| {
      ThroughNext(rs, killed, room, i);
      ShortNext(rs, killed, room, i);
      DataOfOneMore(rs, i);
    } else {
      assert !CutShort(rs, killed, room, i) by { NoneLeft(rs, killed, room, i); }
    }
  }

  lemma NoneLeft(rs: seq<Read>, killed: nat -> bool, room: nat -> nat, m: nat)
    requires m >= |rs| || (m > 0 && rs[m - 1].failed)
    ensures !CutShort(rs, killed, room, m)
  {
  }

  lemma FailedEnds(rs: seq<Read>, killed: nat -> bool, room: nat -> nat, i: nat)
    requires i + 1 < |rs| && rs[i].failed
    ensures !Through(rs, killed, room, i + 2)
  {
    hide LooksFor, Filled;
  }

  lemma FailedLast(rs: seq<Read>, killed: nat -> bool, room: nat -> nat, i: nat)
    requires i < |rs| && Through(rs, killed, room, i) && (i > 0 ==> !rs[i - 1].failed)
    requires rs[i].failed && Through(rs, killed, room, i + 1)
    ensures StopsAt(Before(Data(rs[..i]), Copying(rs, killed, room, i, LooksFor(rs, i), Filled(rs, i))), rs, killed, room, i + 1)
  {
    hide LooksFor, Filled, Through, CutShort, Data, Copying;
    ThroughNext(rs, killed, room, i);
    if i + 1 < |rs| { FailedEnds(rs, killed, room, i); }
    OnlyUpTo(rs, killed, room, i + 1);
    NoneLeft(rs, killed, room, i + 1);
    DataOfOneMore(rs, i);
    OneStep(rs, killed, room, i, LooksFor(rs, i), Filled(rs, i));
  }


  lemma BeforeBefore(a: seq<byte>, b: seq<byte>, c: Copy)
    ensures Before(a, Before(b, c)) == Before(a + b, c)
  {
    assert a + (b + c.sent) == (a + b) + c.sent;
  }

  lemma CopyingNext(rs: seq<Read>, killed: nat -> bool, room: nat -> nat, i: nat, sent: seq<byte>)
    requires i < |rs| && Through(rs, killed, room, i) && (i > 0 ==> !rs[i - 1].failed)
    requires !rs[i].failed && Through(rs, killed, room, i + 1)
    ensures Before(sent, Copying(rs, killed, room, i, LooksFor(rs, i), Filled(rs, i)))
         == Before(sent + rs[i].data, Copying(rs, killed, room, i + 1, LooksFor(rs, i + 1), Filled(rs, i + 1)))
  {
    hide LooksFor, Filled, Through, Copying, Before;
    ThroughNext(rs, killed, room, i);
    OneMoreRead(rs, i);
    OneStep(rs, killed, room, i, LooksFor(rs, i), Filled(rs, i));
    BeforeBefore(sent, rs[i].data, Copying(rs, killed, room, i + 1, LooksFor(rs, i + 1), Filled(rs, i + 1)));
    if rs[i].data == [] { assert sent + rs[i].data == sent; }
  }

  /** The loop from read `i` on, once the first `i` reads went through. */
  lemma {:induction false} CopyStopsAt(rs: seq<Read>, killed: nat -> bool, room: nat -> nat, i: nat) returns (m: nat)
    requires Through(rs, killed, room, i) && (i > 0 ==> !rs[i - 1].failed)
    ensures StopsAt(Before(Data(rs[..i]), Copying(rs, killed, room, i, LooksFor(rs, i), Filled(rs, i))), rs, killed, room, m)
    decreases |rs| - i
  {
    assert i <= |rs|;
    hide LooksFor, Filled, Through, CutShort, Data, StopsAt, Copying, Before;
    if i == |rs| || !Through(rs, killed, room, i + 1) {
      m := i;
      StopsHere(rs, killed, room, i);
    } else if rs[i].failed {
      m := i + 1;
      FailedLast(rs, killed, room, i);
    } else {
      m := CopyStopsAt(rs, killed, room, i + 1);
      CopyingNext(rs, killed, room, i, Data(rs[..i]));
      DataOfOneMore(rs, i);
    }
  }

  /** The bytes of the first `n` reads that brought something. */
  function BytesOfFirst(rs: seq<Read>, n: nat): nat {
    if rs == [] || n == 0 then 0
    else if rs[0].data == [] then BytesOfFirst(rs[1..], n)
    else |rs[0].data| + BytesOfFirst(rs[1..], n - 1)
  }

  lemma {:induction false} MoreOfFirst(rs: seq<Read>, n: nat, m: nat)
    requires n <= m
    ensures BytesOfFirst(rs, n) <= BytesOfFirst(rs, m)
  {
    if rs != [] && n > 0 { MoreOfFirst(rs[1..], if rs[0].data == [] then n else n - 1, if rs[0].data == [] then m else m - 1); }
  }

  /** A look that finds the flag set ends the loop: two looks were made for each read that was counted. */
  lemma {:induction false} KillStopsCopy(rs: seq<Read>, killed: nat -> bool, room: nat -> nat, i: nat, looks: nat, writes: nat, k: nat)
    requires i <= |rs| && looks <= k && killed(k)
    ensures Copying(rs, killed, room, i, looks, writes).counted <= BytesOfFirst(rs[i..], (k - looks) / 2)
    decreases |rs| - i
  {
    OneStep(rs, killed, room, i, looks, writes);
    hide Copying;
    if i < |rs| && !killed(looks) {
      assert rs[i..][1..] == rs[i + 1..];
      if rs[i].data == [] {
        KillStopsCopy(rs, killed, room, i + 1, looks + 1, writes, k);
        MoreOfFirst(rs[i + 1..], (k - looks - 1) / 2, (k - looks) / 2);
      } else if !killed(looks + 1) {
        KillStopsCopy(rs, killed, room, i + 1, looks + 2, writes + 1, k);
        assert (k - looks) / 2 == (k - looks - 2) / 2 + 1;
      }
    }
  }

  ghost predicate StopsInTime(c: Copy, rs: seq<Read>, killed: nat -> bool, room: nat -> nat) {
    exists m: nat :: StopsAt(c, rs, killed, room, m)
  }

  ghost predicate KillIsObeyed(c: Copy, rs: seq<Read>, killed: nat -> bool) {
    forall k: nat :: killed(k) ==> c.counted <= BytesOfFirst(rs, k / 2)
  }

  /** What a copy loop promises: it stops at the first look that finds the flag set, the first failed read or the first write
      that is cut short, and not before; so a prefix of what it read is passed on, everything up to the first read error if
      nothing else stops it, and the count runs ahead by at most the one read whose write failed. */
  ghost predicate Promised(c: Copy, rs: seq<Read>, killed: nat -> bool, room: nat -> nat) {
    && StopsInTime(c, rs, killed, room) && KillIsObeyed(c, rs, killed)
    && c.sent <= Data(rs)
    && ((forall k :: !killed(k)) && (forall w :: room(w) >= CHUNK) ==> c.sent == Data(UpToFailure(rs)))
    && ((forall w :: room(w) >= CHUNK) ==> c.complete)
    && (if c.complete then c.counted == |c.sent| else c.counted - CHUNK <= |c.sent| < c.counted)
  }

  lemma CopyStopsInTime(rs: seq<Read>, killed: nat -> bool, room: nat -> nat)
    ensures StopsInTime(Copying(rs, killed, room, 0, 0, 0), rs, killed, room)
  {
    var c := Copying(rs, killed, room, 0, 0, 0);
    assert Data(rs[..0]) == [];
    assert Before([], c) == c;
    var m := CopyStopsAt(rs, killed, room, 0);
    hide Copying, Data, StopsAt;
  }

  lemma PumpKeeps(rs: seq<Read>, killed: nat -> bool, room: nat -> nat)
    requires forall i :: 0 <= i < |rs| ==> |rs[i].data| <= CHUNK
    ensures Promised(Copying(rs, killed, room, 0, 0, 0), rs, killed, room)
  {
    hide Copying, UpToFailure, BytesOfFirst, StopsAt, Data;
    var c := Copying(rs, killed, room, 0, 0, 0);
    assert rs[0..] == rs;
    CopyIsPrefix(rs, killed, room, 0, 0, 0);
    CopyCounts(rs, killed, room, 0, 0, 0);
    CopyStopsInTime(rs, killed, room);
    hide StopsInTime;
    forall k: nat | killed(k) ensures c.counted <= BytesOfFirst(rs, k / 2) {
      KillStopsCopy(rs, killed, room, 0, 0, 0, k);
    }
    if forall w :: room(w) >= CHUNK {
      RoomyCopyIsComplete(rs, killed, room, 0, 0, 0);
      if forall k :: !killed(k) {
        CopyIsWhole(rs, killed, room, 0, 0, 0);
      }
    }
  }

  /** The copy loop in one direction. `killed(k)` is what the k-th look at the flag sees; `room(w)` is how many
      bytes the w-th write takes before it fails, if that is fewer than it was given. */
  method Pump(rs: seq<Read>, killed: nat -> bool, room: nat -> nat) returns (sent: seq<byte>, counted: nat, complete: bool)
    requires forall i :: 0 <= i < |rs| ==> |rs[i].data| <= CHUNK
    ensures Copy(sent, counted, complete) == Copying(rs, killed, room, 0, 0, 0)
    ensures Promised(Copy(sent, counted, complete), rs, killed, room)
  {
    hide Promised, Data, UpToFailure, Copying;
    sent, counted, complete := [], 0, true;
    var i, looks, writes := 0, 0, 0;
    ghost var whole := Copying(rs, killed, room, 0, 0, 0);
    assert whole == whole.(sent := [] + whole.sent);
    while true
      invariant 0 <= i <= |rs| && 0 <= looks && 0 <= writes && complete
      invariant var rest := Copying(rs, killed, room, i, looks, writes);
                whole == Copy(sent + rest.sent, counted + rest.counted, rest.complete)
      decreases |rs| - i
    {
      OneStep(rs, killed, room, i, looks, writes);
      if killed(looks) {
        break;
      }
      looks := looks + 1;
      if i == |rs| {
        break;
      }
      var r := rs[i];
      i := i + 1;
      if |r.data| > 0 {
        if killed(looks) {
          break;
        }
        looks := looks + 1;
        counted := counted + |r.data|;
        if room(writes) < |r.data| {
          sent, complete := sent + r.data[..room(writes)], false;
          break;
        }
        writes := writes + 1;
        sent := sent + r.data;
      }
      if r.failed {
        break;
      }
    }
    assert whole == Copy(sent, counted, complete);
    PumpKeeps(rs, killed, room);
  }

  /** What canUse, the address lookup and the dial answered. */
  datatype Answers = Answers(action: Verdict, addressOk: bool, dialOk: bool)

  /** What became of a connection: the action recorded, what the target got, what the client got back, and the bytes
      billed each way. */
  datatype Outcome = Outcome(action: Verdict, proto: Protocol, dialled: bool, replayed: seq<byte>, copied: seq<byte>, upload: nat,
                             returned: seq<byte>, download: nat)

  /** The verdict that is recorded: the first check that refuses decides. */
  function Decision(allowed: Setting, proto: Protocol, answers: Answers): Verdict {
    if !AllowedFor(allowed, proto) then DenyProtocol
    else if answers.action != Allow then answers.action
    else if !answers.addressOk then DenyUnbound
    else if !answers.dialOk then DenyTarget
    else Allow
  }

  /** Traffic is let through exactly when every check passes, whatever their order; an unknown protocol never is.
      What is recorded otherwise is the first check that failed. */
  lemma LetThroughMeaning(allowed: Setting, proto: Protocol, answers: Answers)
    ensures Decision(allowed, proto, answers) == Allow
       <==> AllowedFor(allowed, proto) && proto != Unknown && answers == Answers(Allow, true, true)
    ensures Decision(allowed, Unknown, answers) == DenyProtocol
    ensures var d := Decision(allowed, proto, answers);
            d != Allow ==>
              || (!AllowedFor(allowed, proto) && d == DenyProtocol)
              || (AllowedFor(allowed, proto) && answers.action != Allow && d == answers.action)
              || (AllowedFor(allowed, proto) && answers.action == Allow && !answers.addressOk && d == DenyUnbound)
              || (AllowedFor(allowed, proto) && answers.action == Allow && answers.addressOk && !answers.dialOk && d == DenyTarget)
  {
  }

  /** The first packet of a UDP client: what is recorded, and whether a socket towards the target is opened. */
  method AdmitPacket(allowed: Setting, answers: Answers, packet: seq<byte>) returns (action: Verdict, dialled: bool)
    ensures action == Decision(allowed, Detect(packet), answers)
    ensures dialled <==> AllowedFor(allowed, Detect(packet)) && answers.action == Allow && answers.addressOk
    ensures dialled ==> Detect(packet) != Unknown
  {
    var proto := Detect(packet);
    if proto == Unknown || !AllowedFor(allowed, proto) {
      return DenyProtocol, false;
    }
    if answers.action != Allow {
      return answers.action, false;
    }
    if !answers.addressOk {
      return DenyUnbound, false;
    }
    return if answers.dialOk then Allow else DenyTarget, true;
  }

  /** What one copy loop finds: its reads, its looks at the killed flag, and the room its writes find. */
  datatype Half = Half(chunks: seq<Read>, killed: nat -> bool, room: nat -> nat)

  function Passed(h: Half): Copy {
    Copying(h.chunks, h.killed, h.room, 0, 0, 0)
  }

  /** What the target holds after the sniffed bytes `buf` were replayed, `replay` of them taken, and `h` was copied. */
  function Received(buf: seq<byte>, replay: nat, h: Half): seq<byte> {
    (if replay < |buf| then buf[..replay] else buf) + Passed(h).sent
  }

  /** handleTCP. `first` are the reads of the sniffer, `up` and `down` the two copy loops, which share nothing but the
      flag; `replay` is how much of the sniffed bytes the target takes, an answer the code does not look at. */
  method HandleTcp(allowed: Setting, answers: Answers, first: seq<Read>, replay: nat, up: Half, down: Half)
    returns (o: Outcome, used: nat)
    requires forall i :: 0 <= i < |first| ==> |first[i].data| <= SNIFF
    requires forall i :: 0 <= i < |up.chunks| ==> |up.chunks[i].data| <= CHUNK
    requires forall i :: 0 <= i < |down.chunks| ==> |down.chunks[i].data| <= CHUNK
    ensures used == Sniffed(first, 0) <= |first| && o.proto == Detect(Data(first[..used])) && |Data(first[..used])| <= 295
    ensures o.dialled <==> AllowedFor(allowed, o.proto) && answers.action == Allow && answers.addressOk
    ensures o.dialled ==> o.proto != Unknown
    ensures o.action == Decision(allowed, o.proto, answers)
    ensures o.action != Allow ==> o.replayed == o.copied == o.returned == [] && o.upload == o.download == 0
    ensures o.action == Allow ==> o.replayed + o.copied == Received(Data(first[..used]), replay, up)
    ensures o.action == Allow ==> o.copied == Passed(up).sent && o.upload == Passed(up).counted
    ensures o.action == Allow ==> o.returned == Passed(down).sent && o.download == Passed(down).counted
    ensures Promised(Passed(up), up.chunks, up.killed, up.room) && Promised(Passed(down), down.chunks, down.killed, down.room)
    ensures o.copied <= Data(up.chunks) && |o.copied| <= o.upload <= |o.copied| + CHUNK
    ensures o.returned <= Data(down.chunks) && |o.returned| <= o.download <= |o.returned| + CHUNK
    ensures o.action == Allow && replay >= |Data(first[..used])| ==>
              o.replayed + o.copied <= Data(first[..used]) + Data(up.chunks)
    ensures o.action == Allow && (forall k :: !up.killed(k)) && (forall w :: up.room(w) >= CHUNK) ==>
              o.copied == Data(UpToFailure(up.chunks)) && o.upload == |o.copied|
  {
    hide StopsInTime, KillIsObeyed, Copying, Sniffed, UpToFailure, Data, Detect;
    var buf, proto;
    buf, proto, used := Sniff(first);
    o := Outcome(DenyProtocol, proto, false, [], [], 0, [], 0);
    PumpKeeps(up.chunks, up.killed, up.room);
    PumpKeeps(down.chunks, down.killed, down.room);
    if proto == Unknown || !AllowedFor(allowed, proto) {
      return;
    }
    if answers.action != Allow {
      o := o.(action := answers.action);
      return;
    }
    if !answers.addressOk {
      o := o.(action := DenyUnbound);
      return;
    }
    o := o.(dialled := true);
    if !answers.dialOk {
      o := o.(action := DenyTarget);
      return;
    }
    var replayed := if replay < |buf| then buf[..replay] else buf;
    var sent, counted, complete := Pump(up.chunks, up.killed, up.room);
    var back, backCounted, backComplete := Pump(down.chunks, down.killed, down.room);
    o := o.(action := Allow, replayed := replayed, copied := sent, upload := counted, returned := back, download := backCounted);
    assert buf + sent <= buf + Data(up.chunks);
  }

  // ---------- the replay whose result nobody looks at ----------

  /** Reads of the same lengths and errors. */
  ghost predicate SameShape(a: seq<Read>, b: seq<Read>) {
    |a| == |b| && forall i :: 0 <= i < |a| ==> |a[i].data| == |b[i].data| && a[i].failed == b[i].failed
  }

  /** The copy loop passes something on: no error and no kill before its first bytes, and the target takes some of them. */
  ghost predicate CopiesSomething(h: Half) {
    exists i :: FirstBytes(h.chunks, i) && (forall l :: 0 <= l <= i + 1 ==> !h.killed(l)) && h.room(0) > 0
  }

  predicate FirstBytes(rs: seq<Read>, i: nat) {
    i < |rs| && rs[i].data != [] && forall j :: 0 <= j < i ==> rs[j] == Read([], false)
  }

  lemma {:induction false} CopiesExactly(h: Half, i: nat)
    requires i <= |h.chunks| && (forall j :: 0 <= j < i ==> h.chunks[j] == Read([], false))
    requires forall l :: 0 <= l < i ==> !h.killed(l)
    ensures Copying(h.chunks, h.killed, h.room, i, i, 0).sent != [] <==> CopiesSomething(h)
    decreases |h.chunks| - i
  {
    if CopiesSomething(h) {
      var k :| FirstBytes(h.chunks, k) && (forall l :: 0 <= l <= k + 1 ==> !h.killed(l)) && h.room(0) > 0;
      assert i <= k && !h.killed(i) && (i == k ==> !h.killed(i + 1));
      if i < k { CopiesExactly(h, i + 1); }
    } else if i < |h.chunks| && !h.killed(i) {
      if h.chunks[i] == Read([], false) {
        CopiesExactly(h, i + 1);
      } else if h.chunks[i].data != [] {
        assert FirstBytes(h.chunks, i);
        assert h.killed(i + 1) || h.room(0) == 0;
      }
    }
  }

  lemma {:induction false} SameShapeSameLength(h: Half, rs: seq<Read>, i: nat, looks: nat, writes: nat)
    requires SameShape(h.chunks, rs) && i <= |rs|
    ensures |Copying(rs, h.killed, h.room, i, looks, writes).sent| == |Copying(h.chunks, h.killed, h.room, i, looks, writes).sent|
    decreases |rs| - i
  {
    if i < |rs| {
      SameShapeSameLength(h, rs, i + 1, looks + 1, writes);
      SameShapeSameLength(h, rs, i + 1, looks + 2, writes + 1);
    }
  }

  ghost predicate AllAre(s: seq<byte>, b: byte) {
    forall k :: 0 <= k < |s| ==> s[k] == b
  }

  /** The same reads with every byte replaced by `b`. */
  ghost function Painted(rs: seq<Read>, b: byte): (r: seq<Read>)
    ensures SameShape(rs, r) && forall i :: 0 <= i < |r| ==> AllAre(r[i].data, b)
  {
    seq(|rs|, i requires 0 <= i < |rs| => Read(seq(|rs[i].data|, _ => b), rs[i].failed))
  }

  lemma {:induction false} PaintedCopy(rs: seq<Read>, killed: nat -> bool, room: nat -> nat, b: byte, i: nat, looks: nat, writes: nat)
    requires i <= |rs| && forall k :: 0 <= k < |rs| ==> AllAre(rs[k].data, b)
    ensures AllAre(Copying(rs, killed, room, i, looks, writes).sent, b)
    decreases |rs| - i
  {
    if i < |rs| {
      PaintedCopy(rs, killed, room, b, i + 1, looks + 1, writes);
      PaintedCopy(rs, killed, room, b, i + 1, looks + 2, writes + 1);
      assert AllAre(rs[i].data, b);
      assert forall n :: 0 <= n <= |rs[i].data| ==> AllAre(rs[i].data[..n], b);
    }
  }

  /** The code never looks at how much of the replay the target took. Whatever bytes the client sends in reads of these
      lengths, the target holds a prefix of its stream if and only if the replay was whole, or the copy loop passes nothing
      on. */
  lemma ReplayMustBeWhole(buf: seq<byte>, replay: nat, h: Half)
    ensures (forall rs :: SameShape(h.chunks, rs) ==> Received(buf, replay, h.(chunks := rs)) <= buf + Data(rs))
       <==> replay >= |buf| || !CopiesSomething(h)
  {
    CopiesExactly(h, 0);
    if replay >= |buf| || !CopiesSomething(h) {
      forall rs | SameShape(h.chunks, rs) ensures Received(buf, replay, h.(chunks := rs)) <= buf + Data(rs) {
        SameShapeSameLength(h, rs, 0, 0, 0);
        CopyIsPrefix(rs, h.killed, h.room, 0, 0, 0);
        assert rs[0..] == rs;
      }
    } else {
      var b: byte := (buf[replay] as int + 1) % 256;
      var rs := Painted(h.chunks, b);
      assert SameShape(h.chunks, rs);
      SameShapeSameLength(h, rs, 0, 0, 0);
      PaintedCopy(rs, h.killed, h.room, b, 0, 0, 0);
      assert Received(buf, replay, h.(chunks := rs))[replay] == b != (buf + Data(rs))[replay];
    }
  }

  lemma GreetingIsSniffed(rs: seq<Read>)
    requires rs == [Read([5, 1, 0], false), Read([], true)]
    ensures Sniffed(rs, 0) == 2 && Data(rs[..2]) == [5, 1, 0]
  {
    DataOfOneMore(rs, 0);
    DataOfOneMore(rs, 1);
    assert Data(rs[..0]) == [];
    assert Sniffed(rs, 1) == 2;
  }

  /** It does happen: a SOCKS5 greeting of three bytes of which the target takes one, then one more byte. */
  method ShortReplay() returns (o: Outcome, sent: seq<byte>)
    ensures o.action == Allow && !(o.replayed + o.copied <= sent)
  {
    var first := [Read([5, 1, 0], false), Read([], true)];
    var up := Half([Read([9], true)], _ => false, _ => CHUNK);
    var down := Half([], _ => false, _ => CHUNK);
    var used;
    sent := [5, 1, 0, 9];
    o, used := HandleTcp(Auto, Answers(Allow, true, true), first, 1, up, down);
    GreetingIsSniffed(first);
    assert (o.replayed + o.copied)[1] == 9;
  }
}
