/**
 The read and write paths of a mounted BitLocker volume (version 2, "Seven").

 A request names bytes; the disk holds encrypted sectors.  A request is widened
 to whole sectors, decrypted, patched and encrypted again.  The head of the
 volume is kept in a backup area, so writes into it are redirected there, or
 split in two.
*/
module Dislocker {
  import opened Arithmetic

  newtype byte = x: int | 0 <= x < 256

  type Sector = seq<byte>
  type Disk = seq<Sector>

  const EIO := -5
  const ENOMEM := -12
  const EACCES := -13
  const EFAULT := -14
  const EOVERFLOW := -75
  const INT_MAX := 0x7fff_ffff

  datatype Region = Region(addr: nat, size: nat)

  /** The sector cipher, by where a sector is stored; where nothing was encrypted yet it is the sector itself. */
  datatype Cipher = Cipher(enc: (nat, Sector) -> Sector, dec: (nat, Sector) -> Sector)

  /** What the volume's metadata says about it. */
  datatype Layout = Layout(sectorSize: nat, volumeSize: nat, virtualSize: nat, backup: nat,
                           backupSectors: nat, regions: seq<Region>, cipher: Cipher)

  ghost predicate Invertible(c: Cipher, s: nat) {
    && (forall k: nat, x: Sector {:trigger c.enc(k, x)} ::
         |x| == s ==> |c.enc(k, x)| == s && c.dec(k, c.enc(k, x)) == x)
    && (forall k: nat, x: Sector {:trigger c.dec(k, x)} ::
         |x| == s ==> |c.dec(k, x)| == s && c.enc(k, c.dec(k, x)) == x)
  }

  /** Sound metadata: everything lies on sector edges, the backup area is a region, the head is in none. */
  ghost predicate Sound(l: Layout) {
    && 0 < l.sectorSize
    && l.virtualSize == l.backupSectors * l.sectorSize
    && l.backup % l.sectorSize == 0
    && l.virtualSize <= l.backup
    && l.backup + l.virtualSize <= l.volumeSize
    && (forall r :: r in l.regions ==> r.addr % l.sectorSize == 0 && r.size % l.sectorSize == 0)
    && (0 < l.virtualSize ==> Region(l.backup, l.virtualSize) in l.regions)
    && !Overlaps(l.regions, 0, l.virtualSize)
    && Invertible(l.cipher, l.sectorSize)
  }

  ghost predicate DiskFits(l: Layout, d: Disk) {
    && (forall k :: 0 <= k < |d| ==> |d[k]| == l.sectorSize)
    && l.volumeSize <= |d| * l.sectorSize
  }

  // ---- metadata regions ----

  predicate Touches(r: Region, o: int, n: int) {
    0 < r.size && o < r.addr + r.size && r.addr < o + n
  }

  predicate Overlaps(rs: seq<Region>, o: int, n: int) {
    exists i :: 0 <= i < |rs| && Touches(rs[i], o, n)
  }

  predicate InRegion(r: Region, a: int) {
    r.addr <= a < r.addr + r.size
  }

  /** A request meets a region exactly when one of its bytes is in one. */
  lemma SharesByte(rs: seq<Region>, o: int, n: int)
    requires 0 < n
    ensures Overlaps(rs, o, n) <==> exists i, a :: 0 <= i < |rs| && InRegion(rs[i], a) && o <= a < o + n
  {
    if Overlaps(rs, o, n) {
      var i :| 0 <= i < |rs| && Touches(rs[i], o, n);
      var a := if o <= rs[i].addr then rs[i].addr else o;
      assert InRegion(rs[i], a);
    }
    if i, a :| 0 <= i < |rs| && InRegion(rs[i], a) && o <= a < o + n {
      assert Touches(rs[i], o, n);
    }
  }

  method IsOverwritten(rs: seq<Region>, offset: int, size: nat) returns (hit: bool)
    requires 0 < size
    ensures hit == Overlaps(rs, offset, size)
    ensures hit <==> exists i, a :: 0 <= i < |rs| && InRegion(rs[i], a) && offset <= a < offset + size
  {
    SharesByte(rs, offset, size);
    for i := 0 to |rs|
      invariant forall m :: 0 <= m < i ==> !Touches(rs[m], offset, size)
    {
      if rs[i].size == 0 {
        continue;
      }
      if offset >= rs[i].addr && offset < rs[i].addr + rs[i].size {
        assert Touches(rs[i], offset, size);
        return true;
      }
      if offset < rs[i].addr && offset + size > rs[i].addr {
        assert Touches(rs[i], offset, size);
        return true;
      }
    }
    return false;
  }

  // ---- the sector window ----

  function Added(o: nat, n: nat, s: nat): nat
    requires 0 < s
  {
    (if o % s != 0 then 1 else 0) + (if (o + n) % s != 0 then 1 else 0)
  }

  function Count(o: nat, n: nat, s: nat): nat
    requires 0 < s
  {
    n / s + Added(o, n, s)
  }

  predicate InWindow(k: int, o: nat, n: nat, s: nat)
    requires 0 < s
  {
    o / s <= k < o / s + Count(o, n, s)
  }

  /** The window begins inside a sector and stops before that sector's remainder is used up. */
  predicate Excess(o: nat, n: nat, s: nat)
    requires 0 < s
  {
    o % s != 0 && o % s + n % s < s
  }

  /**
   `c` sectors from number `f` cover the request and begin `r` bytes before it;
   all but the spare one are needed; the buffer of `n + a * s` bytes holds them.
   */
  ghost predicate Covers(f: nat, r: nat, o: nat, n: nat, s: nat, a: nat, c: nat, spare: bool) {
    && f * s <= o && r + n <= c * s <= n + a * s && 1 <= c
    && o + n <= (f + c) * s
    && (if spare then (f + c - 2) * s < o + n <= (f + c - 1) * s else (f + c - 1) * s < o + n)
  }

  /** Exactly when one sector too many is counted; and every buffer of the request is long enough. */
  lemma WindowArithmetic(o: nat, n: nat, s: nat)
    requires 0 < s && 0 < n
    ensures Covers(o / s, o % s, o, n, s, Added(o, n, s), Count(o, n, s), Excess(o, n, s))
  {
    hide Covers, Added;
    AddedIs(o, n, s);
    DivBound(o, o / s + 1, s);
    DivBound(n, n / s + 1, s);
    WindowFrom(o, n, o / s, o % s, n / s, n % s, s, Added(o, n, s), Count(o, n, s));
  }

  lemma WindowFrom(o: nat, n: nat, f: nat, r: nat, q: nat, t: nat, s: nat, a: nat, c: nat)
    requires r < s && t < s && o == f * s + r && n == q * s + t && 0 < n && c == q + a
    requires a == (if r == 0 then 0 else 1) + (if r + t == 0 || r + t == s then 0 else 1)
    ensures Covers(f, r, o, n, s, a, c, r != 0 && r + t < s)
  {
    hide Covers;
    NotNegative(f, s);
    NotNegative(q, s);
    WindowAt(f, r, q, t, s, a, c);
  }

  lemma NotNegative(a: nat, b: nat)
    ensures 0 <= a * b
  {
  }

  lemma AddedIs(o: nat, n: nat, s: nat)
    requires 0 < s
    ensures Added(o, n, s) ==
      (if o % s == 0 then 0 else 1) + (if o % s + n % s == 0 || o % s + n % s == s then 0 else 1)
  {
    SumRemainder(o, n, s);
  }

  lemma SumRemainder(o: nat, n: nat, s: nat)
    requires 0 < s
    ensures (o + n) % s == if o % s + n % s < s then o % s + n % s else o % s + n % s - s
  {
    DivBound(o, o / s + 1, s);
    DivBound(n, n / s + 1, s);
    PartsRemainder(o, n, o / s, o % s, n / s, n % s, s);
  }

  lemma PartsRemainder(o: nat, n: nat, f: nat, r: nat, q: nat, t: nat, s: nat)
    requires r < s && t < s && o == f * s + r && n == q * s + t
    ensures (o + n) % s == if r + t < s then r + t else r + t - s
  {
    assert o + n == (f + q) * s + (r + t) by { assert (f + q) * s == f * s + q * s; }
    EndRemainder(f + q, r + t, s);
  }

  lemma WindowAt(f: nat, r: nat, q: nat, t: nat, s: nat, a: nat, c: nat)
    requires r < s && t < s && 0 < q * s + t && c == q + a
    requires a == (if r == 0 then 0 else 1) + (if r + t == 0 || r + t == s then 0 else 1)
    requires 0 <= f * s && 0 <= q * s
    ensures Covers(f, r, f * s + r, q * s + t, s, a, c, r != 0 && r + t < s)
  {
    CountedProducts(f, q, a, s, c);
    if q == 0 {
      assert q * s == 0;
    }
  }

  lemma CountedProducts(f: nat, q: nat, a: nat, s: nat, c: nat)
    requires a <= 2 && c == q + a
    ensures c * s == q * s + a * s
    ensures a * s == (if a == 0 then 0 else if a == 1 then s else 2 * s)
    ensures (f + c) * s == f * s + q * s + a * s
    ensures (f + c - 1) * s == f * s + q * s + a * s - s
    ensures (f + c - 2) * s == f * s + q * s + a * s - 2 * s
  {
  }

  lemma EndRemainder(w: nat, x: nat, s: nat)
    requires 0 <= x < 2 * s
    ensures (w * s + x) % s == (if x < s then x else x - s)
  {
    if x < s {
      DivModUnique(w, x, s);
    } else {
      OneMore(w, x, s);
      DivModUnique(w + 1, x - s, s);
    }
  }

  lemma OneMore(w: nat, x: int, s: nat)
    ensures w * s + x == (w + 1) * s + (x - s)
  {
  }

  // ---- sectors as they are read and written ----

  function Zeros(s: nat): (z: Sector)
    ensures |z| == s
  {
    seq(s, _ => 0 as byte)
  }

  /** A sector of a metadata region reads as zeros wherever it is stored. */
  predicate Hover(l: Layout, k: nat) {
    Overlaps(l.regions, k * l.sectorSize, l.sectorSize)
  }

  /** Where sector `k` is kept: the volume's first sectors are in the backup area. */
  function Home(l: Layout, k: nat): nat
    requires 0 < l.sectorSize
  {
    if k < l.backupSectors then k + l.backup / l.sectorSize else k
  }

  ghost function ReadSector(l: Layout, d: Disk, k: nat): (x: Sector)
    requires Sound(l) && DiskFits(l, d)
    ensures |x| == l.sectorSize
  {
    if Hover(l, k) || |d| <= k || |d| <= Home(l, k) then Zeros(l.sectorSize)
    else l.cipher.dec(Home(l, k), d[Home(l, k)])
  }

  ghost function LogicalByte(l: Layout, d: Disk, a: nat): byte
    requires Sound(l) && DiskFits(l, d)
  {
    ReadSector(l, d, a / l.sectorSize)[a % l.sectorSize]
  }

  /** The volume as its reader sees it. */
  ghost function View(l: Layout, d: Disk): (v: seq<byte>)
    requires Sound(l) && DiskFits(l, d)
    ensures |v| == l.volumeSize
  {
    seq(l.volumeSize, a requires 0 <= a => LogicalByte(l, d, a))
  }

  lemma LogicalAt(l: Layout, d: Disk, k: nat, j: nat)
    requires Sound(l) && DiskFits(l, d) && j < l.sectorSize
    ensures 0 <= k * l.sectorSize
    ensures LogicalByte(l, d, k * l.sectorSize + j) == ReadSector(l, d, k)[j]
  {
    DivModUnique(k, j, l.sectorSize);
  }

  /** A stored byte `a`, `data` laid over it from address `o`. */
  function Laid(o: nat, data: seq<byte>, a: int, under: byte): byte {
    if o <= a < o + |data| then data[a - o] else under
  }

  /** The plain bytes sector `k` is rewritten with: what was read of it, `data` laid over. */
  ghost function Patched(l: Layout, d: Disk, k: nat, o: nat, data: seq<byte>): (x: Sector)
    requires Sound(l) && DiskFits(l, d)
    ensures |x| == l.sectorSize
  {
    seq(l.sectorSize, j requires 0 <= j < l.sectorSize =>
      Laid(o, data, k * l.sectorSize + j, ReadSector(l, d, k)[j]))
  }

  ghost function Rewritten(l: Layout, d: Disk, k: nat, o: nat, data: seq<byte>): (x: Sector)
    requires Sound(l) && DiskFits(l, d) && k < |d|
    ensures |x| == l.sectorSize
  {
    if InWindow(k, o, |data|, l.sectorSize) then l.cipher.enc(k, Patched(l, d, k, o, data)) else d[k]
  }

  /** The disk once `data` is written at physical address `o`. */
  ghost function Rewrite(l: Layout, d: Disk, o: nat, data: seq<byte>): (d': Disk)
    requires Sound(l) && DiskFits(l, d)
    ensures DiskFits(l, d') && |d'| == |d|
  {
    seq(|d|, k requires 0 <= k < |d| => Rewritten(l, d, k, o, data))
  }

  /** The disk once `data` is written at logical address `o`: redirected, split or direct. */
  ghost function Stored(l: Layout, d: Disk, o: nat, data: seq<byte>): (d': Disk)
    requires Sound(l) && DiskFits(l, d)
    ensures DiskFits(l, d') && |d'| == |d|
  {
    if l.virtualSize <= o then Rewrite(l, d, o, data)
    else if o + |data| <= l.virtualSize then Rewrite(l, d, o + l.backup, data)
    else
      var m := l.virtualSize - o;
      Rewrite(l, Rewrite(l, d, o + l.backup, data[..m]), l.virtualSize, data[m..])
  }

  /** What the environment grants one pass: memory, a readable disk, a writable disk. */
  datatype Grant = Grant(memory: bool, readable: bool, writable: bool) {
    predicate Full() {
      memory && readable && writable
    }
  }

  method SectorsToAdd(s: nat, offset: nat, size: nat) returns (toAdd: nat)
    requires 0 < s
    ensures toAdd == Added(offset, size, s)
  {
    toAdd := 0;
    if offset % s != 0 {
      toAdd := toAdd + 1;
    }
    if (offset + size) % s != 0 {
      toAdd := toAdd + 1;
    }
  }

  /** First sector, number of sectors, bytes to skip in the first one, bytes to allocate. */
  method Window(s: nat, offset: nat, size: nat) returns (start: nat, count: nat, skip: nat, room: nat)
    requires 0 < s && 0 < size
    ensures start == offset / s && count == Count(offset, size, s) && room == size + Added(offset, size, s) * s
    ensures offset == start * s + skip && skip < s
    ensures skip + size <= count * s <= room
  {
    hide Added, Excess;
    var toAdd := SectorsToAdd(s, offset, size);
    start, count, skip := offset / s, size / s + toAdd, offset % s;
    WindowArithmetic(offset, size, s);
    room := size + toAdd * s;
  }

  predicate Splits(l: Layout, o: int, n: int) {
    o < l.virtualSize < o + n
  }

  /**
   How many bytes of a request reach the disk: all that fit the volume, none, or the
   redirected ones alone, exactly when the request splits and only their pass succeeds.
  */
  function Reaches(l: Layout, open: bool, o: int, size: nat, grant: Grant, first: Grant): (k: nat)
    ensures k <= size && (k > 0 ==> 0 <= o && o + k <= l.volumeSize)
  {
    if !open || size == 0 || size > INT_MAX || o < 0 || l.volumeSize <= o then 0
    else
      var n := Min(size, l.volumeSize - o);
      if Overlaps(l.regions, o, n) || (Splits(l, o, n) && !first.Full()) then 0
      else if grant.Full() then n
      else if Splits(l, o, n) then l.virtualSize - o
      else 0
  }

  lemma OverlapsGrows(rs: seq<Region>, o: int, m: int, n: int)
    requires m <= n && Overlaps(rs, o, m)
    ensures Overlaps(rs, o, n)
  {
    var i :| 0 <= i < |rs| && Touches(rs[i], o, m);
    assert Touches(rs[i], o, n);
  }

  /** The sector that starts `at` bytes into the buffer. */
  function Piece(buf: seq<byte>, at: int, s: nat): (x: Sector)
    ensures |x| == s
  {
    if 0 <= at && at + s <= |buf| then buf[at..at + s] else Zeros(s)
  }

  class Context {
    const layout: Layout
    var sectors: Disk
    var complete: bool
    var safe: bool
    var readOnly: bool

    ghost predicate Valid()
      reads this
    {
      Sound(layout) && DiskFits(layout, sectors)
    }

    /** Whether the context takes writes at all. */
    predicate Open()
      reads `complete, `safe, `readOnly
    {
      complete && safe && !readOnly
    }

    constructor (l: Layout, d: Disk, complete: bool, safe: bool, readOnly: bool)
      requires Sound(l) && DiskFits(l, d)
      ensures Valid() && layout == l && sectors == d
      ensures this.complete == complete && this.safe == safe && this.readOnly == readOnly
    {
      layout, sectors := l, d;
      this.complete, this.safe, this.readOnly := complete, safe, readOnly;
    }

    method DecryptSector(k: nat) returns (plain: Sector)
      requires Valid()
      ensures plain == ReadSector(layout, sectors, k)
    {
      var s := layout.sectorSize;
      var hover := IsOverwritten(layout.regions, k * s, s);
      if hover || |sectors| <= k {
        return Zeros(s);
      }
      var from := if k < layout.backupSectors then k + layout.backup / s else k;
      if |sectors| <= from {
        return Zeros(s);
      }
      plain := layout.cipher.dec(from, sectors[from]);
    }

    static method Fill(buf: array<byte>, at: nat, plain: Sector)
      requires at + |plain| <= buf.Length
      modifies buf
      ensures forall q :: 0 <= q < buf.Length ==>
        buf[q] == if at <= q < at + |plain| then plain[q - at] else old(buf[q])
    {
      forall j | 0 <= j < |plain| {
        buf[at + j] := plain[j];
      }
    }

    method DecryptRegion(count: nat, start: nat, buf: array<byte>, grant: Grant) returns (ok: bool)
      requires Valid() && count * layout.sectorSize <= buf.Length
      modifies buf
      ensures ok == grant.readable
      ensures ok ==> Holds(layout, sectors, 0, [], buf[..], start * layout.sectorSize, count * layout.sectorSize)
    {
      if !grant.readable {
        return false;
      }
      hide Sound, DiskFits, ReadSector, Holds;
      var s := layout.sectorSize;
      NothingHeld(layout, sectors, buf[..], start * s);
      for i := 0 to count
        invariant 0 <= i * s <= count * s
        invariant Holds(layout, sectors, 0, [], buf[..], start * s, i * s)
      {
        var plain := DecryptSector(start + i);
        ghost var before := buf[..];
        SectorFits(start, i, count, s);
        Fill(buf, i * s, plain);
        HoldsMore(layout, sectors, before, buf[..], start * s, i * s, start + i);
      }
      return true;
    }

    /** Sectors past the end of the disk are not stored. */
    method EncryptRegion(count: nat, start: nat, buf: array<byte>, grant: Grant) returns (ok: bool)
      requires Valid() && count * layout.sectorSize <= buf.Length
      modifies `sectors
      ensures Valid() && |sectors| == |old(sectors)|
      ensures ok == grant.writable
      ensures !ok ==> sectors == old(sectors)
      ensures ok ==> forall k :: 0 <= k < |sectors| ==>
        if start <= k < start + count then
          sectors[k] == layout.cipher.enc(k, Piece(buf[..], (k - start) * layout.sectorSize, layout.sectorSize))
        else sectors[k] == old(sectors[k])
    {
      if !grant.writable {
        return false;
      }
      var s := layout.sectorSize;
      for i := 0 to count
        invariant Valid() && |sectors| == |old(sectors)|
        invariant forall k :: 0 <= k < |sectors| ==>
          if start <= k < start + i then sectors[k] == layout.cipher.enc(k, Piece(buf[..], (k - start) * s, s))
          else sectors[k] == old(sectors[k])
      {
        WindowOffset(start, i, count, s - 1, s);
        if start + i < |sectors| {
          var at := i * s;
          var x := buf[at..at + s];
          assert x == Piece(buf[..], at, s);
          sectors := sectors[start + i := layout.cipher.enc(start + i, x)];
        }
      }
      return true;
    }

    // -5 no input or output, -12 no memory, -13 read-only, -14 refused, -75 too large for what is returned
    method Dislock(buffer: array<byte>, offset: int, size: nat, grant: Grant) returns (ret: int)
      requires Valid() && size <= buffer.Length
      modifies buffer
      ensures ret < 0 || size == 0 ==> buffer[..] == old(buffer[..])
      ensures !complete || !safe ==> ret == -14
      ensures complete && safe ==>
        if size == 0 then ret == 0
        else if size > INT_MAX then ret == -75
        else if offset < 0 || layout.volumeSize <= offset then ret == -14
        else if !grant.memory then ret == -12
        else if !grant.readable then ret == -5
        else ret == size
      ensures ret > 0 ==> forall i :: 0 <= i < buffer.Length ==>
        buffer[i] == if i < size then LogicalByte(layout, sectors, offset + i) else old(buffer[i])
    {
      if !complete || !safe {
        return EFAULT;
      }
      if size == 0 {
        return 0;
      }
      if size > INT_MAX {
        return EOVERFLOW;
      }
      if offset < 0 || offset >= layout.volumeSize {
        return EFAULT;
      }
      var start, count, skip, room := Window(layout.sectorSize, offset, size);
      if !grant.memory {
        return ENOMEM;
      }
      var buf := new byte[room];
      var ok := DecryptRegion(count, start, buf, grant);
      if !ok {
        return EIO;
      }
      forall i | 0 <= i < size {
        buffer[i] := buf[skip + i];
      }
      return size;
    }

    /** One pass over the sectors that hold `data` at physical address `at`: read, patch, write back. */
    method WriteThrough(data: seq<byte>, at: nat, grant: Grant) returns (ret: int)
      requires Valid() && 0 < |data|
      modifies `sectors
      ensures Valid()
      ensures ret == if !grant.memory then ENOMEM else if !grant.readable || !grant.writable then EIO else |data|
      ensures sectors == if grant.Full() then Rewrite(layout, old(sectors), at, data) else old(sectors)
    {
      var start, count, skip, room := Window(layout.sectorSize, at, |data|);
      if !grant.memory {
        return ENOMEM;
      }
      var buf := new byte[room];
      var ok := DecryptRegion(count, start, buf, grant);
      if !ok {
        return EIO;
      }
      ghost var read := buf[..];
      forall i | 0 <= i < |data| {
        buf[skip + i] := data[i];
      }
      ghost var patched := buf[..];
      PatchedHolds(layout, sectors, at, data, read, patched,
                   start * layout.sectorSize, count * layout.sectorSize, skip);
      ok := EncryptRegion(count, start, buf, grant);
      if !ok {
        return EIO;
      }
      WindowStored(layout, old(sectors), sectors, at, data, patched, start, count);
      return |data|;
    }

    /** `first` is what the environment grants the recursive call, `grant` what it grants the rest. */
    method Enlock(data: seq<byte>, offset: int, size: nat, grant: Grant, first: Grant) returns (ret: int)
      requires Valid() && size <= |data|
      modifies `sectors
      // one recursive call at most: it ends where the virtualised area ends
      decreases if Splits(layout, offset, size) then 1 else 0
      ensures Valid()
      ensures !complete || !safe ==> ret == -14
      ensures complete && safe ==>
        if readOnly then ret == -13
        else if size == 0 then ret == 0
        else if size > INT_MAX then ret == -75
        else if offset < 0 || layout.volumeSize <= offset then ret == -14
        else
          var n := Min(size, layout.volumeSize - offset);
          if Overlaps(layout.regions, offset, n) then ret == -14
          else if Splits(layout, offset, n) && !first.Full() then ret == (if first.memory then -5 else -12)
          else ret == (if grant.Full() then n else if grant.memory then -5 else -12)
      // the disk: what no check lets through, or no pass carries out, leaves every sector as it was
      ensures !complete || !safe || readOnly ==> sectors == old(sectors)
      ensures size == 0 || size > INT_MAX || offset < 0 || layout.volumeSize <= offset ==> sectors == old(sectors)
      ensures
        complete && safe && !readOnly && 0 < size <= INT_MAX && 0 <= offset < layout.volumeSize ==>
          var n := Min(size, layout.volumeSize - offset);
          var head := layout.virtualSize - offset;
          if Overlaps(layout.regions, offset, n) then sectors == old(sectors)
          else if 0 < head < n && !(first.memory && first.readable && first.writable) then sectors == old(sectors)
          else if grant.memory && grant.readable && grant.writable then
            sectors == Stored(layout, old(sectors), offset, data[..n])
          else if 0 < head < n then sectors == Stored(layout, old(sectors), offset, data[..head])
          else sectors == old(sectors)
    {
      hide Sound, DiskFits, InRegion;
      ret := 0;
      if !complete || !safe {
        return EFAULT;
      }
      if readOnly {
        return EACCES;
      }
      if size == 0 {
        return 0;
      }
      if size > INT_MAX {
        return EOVERFLOW;
      }
      if offset < 0 || offset >= layout.volumeSize {
        return EFAULT;
      }
      var n := size;
      if offset + n >= layout.volumeSize {
        n := layout.volumeSize - offset;
      }
      var hit := IsOverwritten(layout.regions, offset, n);
      if hit {
        return EFAULT;
      }
      var rest, at := data[..n], offset;
      if offset < layout.virtualSize {
        if offset + n <= layout.virtualSize {
          at := offset + layout.backup;
        } else {
          var m := layout.virtualSize - offset;
          if Overlaps(layout.regions, offset, m) {
            OverlapsGrows(layout.regions, offset, m, n);
          }
          ret := Enlock(data, offset, m, first, first);
          if ret < 0 {
            return;
          }
          assert data[..m] == rest[..m];
          at, rest := layout.virtualSize, rest[m..];
        }
      }
      var wrote := WriteThrough(rest, at, grant);
      if wrote < 0 {
        return wrote;
      }
      ret := wrote + ret;
    }
  }

  /** `buf` begins with `len` logical bytes from address `base`, `data` laid over them. */
  ghost predicate Holds(l: Layout, d: Disk, o: nat, data: seq<byte>, buf: seq<byte>, base: nat, len: nat)
    requires Sound(l) && DiskFits(l, d)
  {
    len <= |buf| && forall q :: 0 <= q < len ==> buf[q] == Laid(o, data, base + q, LogicalByte(l, d, base + q))
  }

  /** Writing back a patched window stores exactly `Rewrite`. */
  lemma WindowStored(l: Layout, d: Disk, d': Disk, o: nat, data: seq<byte>, buf: seq<byte>, start: nat, count: nat)
    requires Sound(l) && DiskFits(l, d) && |d'| == |d|
    requires start == o / l.sectorSize && count == Count(o, |data|, l.sectorSize)
    requires Holds(l, d, o, data, buf, start * l.sectorSize, count * l.sectorSize)
    requires forall k :: 0 <= k < |d'| ==>
      if start <= k < start + count then d'[k] == l.cipher.enc(k, Piece(buf, (k - start) * l.sectorSize, l.sectorSize))
      else d'[k] == d[k]
    ensures d' == Rewrite(l, d, o, data)
  {
    forall k | 0 <= k < |d'|
      ensures d'[k] == Rewritten(l, d, k, o, data)
    {
      if start <= k < start + count {
        PieceIsPatched(l, d, k, o, data, buf, start, count);
      }
    }
  }

  lemma PieceIsPatched(l: Layout, d: Disk, k: nat, o: nat, data: seq<byte>, buf: seq<byte>, start: nat, count: nat)
    requires Sound(l) && DiskFits(l, d) && start <= k < start + count
    requires Holds(l, d, o, data, buf, start * l.sectorSize, count * l.sectorSize)
    ensures Piece(buf, (k - start) * l.sectorSize, l.sectorSize) == Patched(l, d, k, o, data)
  {
    hide Holds, Sound, DiskFits, Patched;
    var s := l.sectorSize;
    assert |buf| >= count * s by { HoldsFits(l, d, o, data, buf, start * s, count * s); }
    forall j | 0 <= j < s
      ensures Piece(buf, (k - start) * s, s)[j] == Patched(l, d, k, o, data)[j]
    {
      WindowOffset(start, k - start, count, j, s);
      WindowOffset(start, k - start, count, s - 1, s);
      PieceByte(l, d, k, o, data, buf, start * s, count * s, (k - start) * s, j);
    }
  }

  lemma NothingHeld(l: Layout, d: Disk, buf: seq<byte>, base: nat)
    requires Sound(l) && DiskFits(l, d)
    ensures Holds(l, d, 0, [], buf, base, 0)
  {
  }

  lemma SectorFits(start: nat, i: nat, count: nat, s: nat)
    requires i < count
    ensures 0 <= i * s && i * s + s <= count * s && (i + 1) * s == i * s + s
    ensures start * s + i * s == (start + i) * s
  {
    MulMonotone(i + 1, count, s);
  }

  lemma HoldsFits(l: Layout, d: Disk, o: nat, data: seq<byte>, buf: seq<byte>, base: nat, len: nat)
    requires Sound(l) && DiskFits(l, d) && Holds(l, d, o, data, buf, base, len)
    ensures len <= |buf|
  {
  }

  lemma HoldsMore(l: Layout, d: Disk, before: seq<byte>, buf: seq<byte>, base: nat, len: nat, k: nat)
    requires Sound(l) && DiskFits(l, d) && base + len == k * l.sectorSize
    requires |before| == |buf| && len + l.sectorSize <= |buf|
    requires Holds(l, d, 0, [], before, base, len)
    requires forall q :: 0 <= q < len ==> buf[q] == before[q]
    requires forall j :: 0 <= j < l.sectorSize ==> buf[len + j] == ReadSector(l, d, k)[j]
    ensures Holds(l, d, 0, [], buf, base, len + l.sectorSize)
  {
    forall q | 0 <= q < len + l.sectorSize
      ensures buf[q] == LogicalByte(l, d, base + q)
    {
      if q < len {
        assert before[q] == Laid(0, [], base + q, LogicalByte(l, d, base + q));
      } else {
        LogicalAt(l, d, k, q - len);
        assert buf[len + (q - len)] == ReadSector(l, d, k)[q - len];
      }
    }
  }

  lemma PatchedHolds(l: Layout, d: Disk, o: nat, data: seq<byte>, read: seq<byte>, patched: seq<byte>, base: nat,
                     len: nat, skip: nat)
    requires Sound(l) && DiskFits(l, d)
    requires Holds(l, d, 0, [], read, base, len) && o == base + skip && skip + |data| <= len
    requires |patched| == |read|
    requires forall q :: 0 <= q < |read| ==> patched[q] == if skip <= q < skip + |data| then data[q - skip] else read[q]
    ensures Holds(l, d, o, data, patched, base, len)
  {
    forall q | 0 <= q < len
      ensures patched[q] == Laid(o, data, base + q, LogicalByte(l, d, base + q))
    {
      assert read[q] == Laid(0, [], base + q, LogicalByte(l, d, base + q));
    }
  }

  lemma PieceByte(l: Layout, d: Disk, k: nat, o: nat, data: seq<byte>, buf: seq<byte>, base: nat, len: nat, i: nat,
                  j: nat)
    requires Sound(l) && DiskFits(l, d) && j < l.sectorSize && i + j < len
    requires Holds(l, d, o, data, buf, base, len) && base + i == k * l.sectorSize
    ensures buf[i + j] == Patched(l, d, k, o, data)[j]
  {
    LogicalAt(l, d, k, j);
    assert base + (i + j) == k * l.sectorSize + j;
  }

  lemma WindowOffset(start: nat, i: nat, count: nat, j: nat, s: nat)
    requires i < count && j < s
    ensures 0 <= i * s && i * s + j < count * s
    ensures start * s + (i * s + j) == (start + i) * s + j
  {
    MulMonotone(i + 1, count, s);
  }
}
