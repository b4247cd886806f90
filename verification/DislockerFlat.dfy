/**
 What the volume's reader sees of writes: when a write is the write of a plain
 array, what else it changes when it is not, and reads after any run of writes.
*/
module DislockerFlat {
  import opened Arithmetic
  import opened Dislocker

  // ---- the view after one pass ----

  /** Metadata regions lie on sector edges, so a sector reads as zeros iff any of its bytes is in one. */
  lemma HoverByte(l: Layout, a: nat)
    requires Sound(l)
    ensures Hover(l, a / l.sectorSize) <==> Overlaps(l.regions, a, 1)
  {
    var s, k := l.sectorSize, a / l.sectorSize;
    assert k * s <= a < k * s + s;
    if Hover(l, k) {
      var i :| 0 <= i < |l.regions| && Touches(l.regions[i], k * s, s);
      AlignedTouch(l.regions[i].addr, l.regions[i].size, k, s);
      assert Touches(l.regions[i], a, 1);
    }
    if Overlaps(l.regions, a, 1) {
      var i :| 0 <= i < |l.regions| && Touches(l.regions[i], a, 1);
      assert Touches(l.regions[i], k * s, s);
    }
  }

  lemma AlignedTouch(addr: nat, size: nat, k: nat, s: nat)
    requires 0 < s && addr % s == 0 && size % s == 0
    requires k * s < addr + size && addr < k * s + s
    ensures addr <= k * s && k * s + s <= addr + size
  {
    DivBound(addr, addr / s + 1, s);
    DivBound(size, size / s + 1, s);
    AlignedProducts(addr, size, addr / s, size / s, k, s);
  }

  lemma AlignedProducts(addr: nat, size: nat, x: nat, y: nat, k: nat, s: nat)
    requires 0 < s && addr == x * s && size == y * s
    requires k * s < addr + size && addr < k * s + s
    ensures addr <= k * s && k * s + s <= addr + size
  {
    assert addr + size == (x + y) * s by { Distribute(x, y, s); }
    assert (k + 1) * s == k * s + s by { Distribute(k, 1, s); }
    MulStrict(k, x + y, s);
    MulStrict(x, k + 1, s);
    MulMonotone(x, k, s);
    MulMonotone(k + 1, x + y, s);
  }

  lemma Distribute(a: int, b: int, s: int)
    ensures (a + b) * s == a * s + b * s
  {
  }

  lemma HitInWindow(x: nat, p: nat, n: nat, s: nat)
    requires 0 < s && p <= x < p + n
    ensures InWindow(x / s, p, n, s)
  {
    hide Count;
    WindowCovers(p, n, s);
    DivMonotone(p, x, s);
    DivBound(x, p / s + Count(p, n, s), s);
  }

  lemma WindowCovers(o: nat, n: nat, s: nat)
    requires 0 < s && 0 < n
    ensures o + n <= (o / s + Count(o, n, s)) * s
  {
    hide Count, Excess;
    WindowArithmetic(o, n, s);
  }

  /** The byte at `a < virtualSize` is stored `backup` further on, in a sector that reads as zeros there. */
  lemma HeadHome(l: Layout, a: nat)
    requires Sound(l) && a < l.virtualSize
    ensures Home(l, a / l.sectorSize) == (a + l.backup) / l.sectorSize
    ensures a / l.sectorSize < l.backupSectors && (a + l.backup) % l.sectorSize == a % l.sectorSize
    ensures Hover(l, (a + l.backup) / l.sectorSize) && Overlaps(l.regions, a + l.backup, 1)
  {
    var s := l.sectorSize;
    DivBound(a, l.backupSectors, s);
    var b, k := l.backup / s, a / s;
    assert a + l.backup == (k + b) * s + a % s by { assert (k + b) * s == k * s + b * s; }
    DivModUnique(k + b, a % s, s);
    var i :| 0 <= i < |l.regions| && l.regions[i] == Region(l.backup, l.virtualSize);
    assert Touches(l.regions[i], a + l.backup, 1);
    HoverByte(l, a + l.backup);
  }

  lemma BackupHovers(l: Layout, a: nat)
    requires Sound(l)
    ensures l.backup <= a < l.backup + l.virtualSize ==> Overlaps(l.regions, a, 1)
  {
    if l.backup <= a < l.backup + l.virtualSize {
      HeadHome(l, a - l.backup);
    }
  }

  lemma TailHome(l: Layout, a: nat)
    requires Sound(l) && l.virtualSize <= a
    ensures Home(l, a / l.sectorSize) == a / l.sectorSize
  {
    DivBound(a, l.backupSectors, l.sectorSize);
  }

  /** One pass writes logical `[o, o + n)` at physical `p`. */
  ghost predicate IsPass(l: Layout, o: nat, n: nat, p: nat) {
    && 0 < n && o + n <= l.volumeSize && !Overlaps(l.regions, o, n)
    && ((p == o && l.virtualSize <= o) || (p == o + l.backup && o + n <= l.virtualSize))
  }

  /** The pass reads, and so writes back, byte `a`'s backup sector as zeros. */
  predicate Blanked(l: Layout, p: nat, n: nat, a: nat)
    requires 0 < l.sectorSize
  {
    a < l.virtualSize && InWindow(Home(l, a / l.sectorSize), p, n, l.sectorSize)
  }

  function Pass(l: Layout, v: seq<byte>, o: nat, p: nat, data: seq<byte>): (v': seq<byte>)
    requires 0 < l.sectorSize
    ensures |v'| == |v|
  {
    seq(|v|, a requires 0 <= a < |v| =>
      if o <= a < o + |data| then data[a - o] else if Blanked(l, p, |data|, a) then 0 else v[a])
  }

  lemma PassView(l: Layout, d: Disk, o: nat, p: nat, data: seq<byte>)
    requires Sound(l) && DiskFits(l, d) && IsPass(l, o, |data|, p)
    ensures View(l, Rewrite(l, d, p, data)) == Pass(l, View(l, d), o, p, data)
  {
    var d' := Rewrite(l, d, p, data);
    forall a | 0 <= a < l.volumeSize
      ensures View(l, d')[a] == Pass(l, View(l, d), o, p, data)[a]
    {
      PassByte(l, d, o, p, data, a);
    }
  }

  lemma PassByte(l: Layout, d: Disk, o: nat, p: nat, data: seq<byte>, a: nat)
    requires Sound(l) && DiskFits(l, d) && IsPass(l, o, |data|, p) && a < l.volumeSize
    ensures LogicalByte(l, Rewrite(l, d, p, data), a) ==
      if o <= a < o + |data| then data[a - o] else if Blanked(l, p, |data|, a) then 0 else LogicalByte(l, d, a)
  {
    if a < l.virtualSize {
      HeadByte(l, d, o, p, data, a);
    } else {
      TailByte(l, d, o, p, data, a);
    }
  }

  lemma NoHitInRegions(l: Layout, o: nat, n: nat, a: nat)
    requires Sound(l) && !Overlaps(l.regions, o, n)
    ensures o <= a < o + n ==> !Overlaps(l.regions, a, 1)
  {
  }

  lemma HeadByte(l: Layout, d: Disk, o: nat, p: nat, data: seq<byte>, a: nat)
    requires Sound(l) && DiskFits(l, d) && IsPass(l, o, |data|, p) && a < l.virtualSize
    ensures LogicalByte(l, Rewrite(l, d, p, data), a) ==
      if o <= a < o + |data| then data[a - o] else if Blanked(l, p, |data|, a) then 0 else LogicalByte(l, d, a)
  {
    var s := l.sectorSize;
    var h, j := (a + l.backup) / s, a % s;
    HeadHome(l, a);
    HoverByte(l, a);
    NoHitInRegions(l, o, |data|, a);
    NoHitInRegions(l, o, |data|, a + l.backup);
    DivBound(a + l.backup, |d|, s);
    DivBound(a, |d|, s);
    if !Hover(l, a / s) {
      if InWindow(h, p, |data|, s) {
        assert Patched(l, d, h, p, data)[j] == Laid(p, data, h * s + j, 0);
      } else if o <= a < o + |data| {
        HitInWindow(a + l.backup, p, |data|, s);
      }
    }
  }

  lemma TailByte(l: Layout, d: Disk, o: nat, p: nat, data: seq<byte>, a: nat)
    requires Sound(l) && DiskFits(l, d) && IsPass(l, o, |data|, p) && l.virtualSize <= a < l.volumeSize
    ensures LogicalByte(l, Rewrite(l, d, p, data), a) ==
      if o <= a < o + |data| then data[a - o] else LogicalByte(l, d, a)
  {
    var s := l.sectorSize;
    var k, j := a / s, a % s;
    TailHome(l, a);
    HoverByte(l, a);
    NoHitInRegions(l, o, |data|, a);
    BackupHovers(l, a);
    DivBound(a, |d|, s);
    if !Hover(l, k) {
      if InWindow(k, p, |data|, s) {
        assert Patched(l, d, k, p, data)[j] == Laid(p, data, k * s + j, ReadSector(l, d, k)[j]);
      } else if o <= a < o + |data| {
        HitInWindow(a, p, |data|, s);
      }
    }
  }

  predicate InSome(rs: seq<Region>, a: int) {
    exists i :: 0 <= i < |rs| && InRegion(rs[i], a)
  }

  lemma InSomeTouches(rs: seq<Region>, a: int)
    ensures InSome(rs, a) <==> Overlaps(rs, a, 1)
  {
    if Overlaps(rs, a, 1) {
      var i :| 0 <= i < |rs| && Touches(rs[i], a, 1);
      assert InRegion(rs[i], a);
    }
    if i :| 0 <= i < |rs| && InRegion(rs[i], a) {
      assert Touches(rs[i], a, 1);
    }
  }

  /** What a reader sees, byte by byte: zeros in a region, the head from the backup area, the rest in place. */
  lemma ByteRead(l: Layout, d: Disk, a: nat)
    requires Sound(l) && DiskFits(l, d) && a < l.volumeSize
    ensures InSome(l.regions, a) ==> View(l, d)[a] == 0
    ensures !InSome(l.regions, a) ==>
      var p := if a < l.virtualSize then a + l.backup else a;
      && 0 <= p / l.sectorSize < |d|
      && |l.cipher.dec(p / l.sectorSize, d[p / l.sectorSize])| == l.sectorSize
      && View(l, d)[a] == l.cipher.dec(p / l.sectorSize, d[p / l.sectorSize])[p % l.sectorSize]
  {
    InSomeTouches(l.regions, a);
    HoverByte(l, a);
    DivBound(a, |d|, l.sectorSize);
    if a < l.virtualSize {
      HeadHome(l, a);
      DivBound(a + l.backup, |d|, l.sectorSize);
    } else {
      TailHome(l, a);
    }
  }

  // ---- the view after a whole request ----

  ghost predicate Accepts(l: Layout, o: nat, n: nat) {
    0 < n && o + n <= l.volumeSize && !Overlaps(l.regions, o, n)
  }

  function Wrote(l: Layout, v: seq<byte>, o: nat, data: seq<byte>): (v': seq<byte>)
    requires 0 < l.sectorSize
    ensures |v'| == |v|
  {
    if l.virtualSize <= o then Pass(l, v, o, o, data)
    else if o + |data| <= l.virtualSize then Pass(l, v, o, o + l.backup, data)
    else
      var m := l.virtualSize - o;
      Pass(l, Pass(l, v, o, o + l.backup, data[..m]), l.virtualSize, l.virtualSize, data[m..])
  }

  lemma StoredView(l: Layout, d: Disk, o: nat, data: seq<byte>)
    requires Sound(l) && DiskFits(l, d) && Accepts(l, o, |data|)
    ensures View(l, Stored(l, d, o, data)) == Wrote(l, View(l, d), o, data)
  {
    hide View, Pass, Rewrite, Sound, DiskFits, Overlaps;
    if l.virtualSize <= o {
      PassView(l, d, o, o, data);
    } else if o + |data| <= l.virtualSize {
      PassView(l, d, o, o + l.backup, data);
    } else {
      var m := l.virtualSize - o;
      SplitAccepts(l, o, |data|);
      PassView(l, d, o, o + l.backup, data[..m]);
      PassView(l, Rewrite(l, d, o + l.backup, data[..m]), l.virtualSize, l.virtualSize, data[m..]);
    }
  }

  lemma SplitAccepts(l: Layout, o: nat, n: nat)
    requires Sound(l) && Accepts(l, o, n) && Splits(l, o, n)
    ensures IsPass(l, o, l.virtualSize - o, o + l.backup)
    ensures IsPass(l, l.virtualSize, o + n - l.virtualSize, l.virtualSize)
  {
  }

  /** A plain array with `data` laid over it. */
  function Flat(v: seq<byte>, o: nat, data: seq<byte>): (v': seq<byte>)
    ensures |v'| == |v|
  {
    seq(|v|, a requires 0 <= a < |v| => Laid(o, data, a, v[a]))
  }

  /**
   A request in the head covers whole sectors; one behind it does not count its
   spare sector into the start of the backup area.
   */
  predicate Clean(l: Layout, o: nat, n: nat)
    requires 0 < l.sectorSize
  {
    var s := l.sectorSize;
    if o < l.virtualSize then o % s == 0 && (l.virtualSize <= o + n || (o + n) % s == 0)
    else !(0 < l.virtualSize && Excess(o, n, s) && (o + n) / s + 1 == l.backup / s)
  }

  lemma HeadWindow(l: Layout, o: nat, n: nat, a: nat)
    requires Sound(l) && o + n <= l.virtualSize && 0 < n && a < l.virtualSize
    ensures Blanked(l, o + l.backup, n, a) <==> InWindow(a / l.sectorSize, o, n, l.sectorSize)
  {
    hide Overlaps, Hover, Invertible;
    HeadHome(l, a);
    var s, b := l.sectorSize, l.backup / l.sectorSize;
    ShiftDiv(o, b, s);
    ShiftDiv(o + n, b, s);
    assert l.backup == b * s;
  }

  /** A window over whole sectors counts them exactly. */
  lemma AlignedWindow(o: nat, n: nat, s: nat, a: nat)
    requires 0 < s && 0 < n && o % s == 0 && (o + n) % s == 0
    ensures InWindow(a / s, o, n, s) ==> o <= a < o + n
  {
    WindowArithmetic(o, n, s);
    if InWindow(a / s, o, n, s) {
      MulMonotone(o / s, a / s, s);
      var last := o / s + Count(o, n, s) - 1;
      MulMonotone(a / s, last, s);
      assert last * s < o + n;
      DivBound(o + n, last + 1, s);
      MulStrict(last, (o + n) / s, s);
      MulMonotone(a / s + 1, (o + n) / s, s);
    }
  }

  /** The window's last sector begins before the request's end, or is the spare one. */
  lemma WindowLast(o: nat, n: nat, s: nat)
    requires 0 < s && 0 < n
    ensures var last := o / s + Count(o, n, s) - 1;
      if Excess(o, n, s) then (o + n) / s == last - 1 && o / s < last else last * s < o + n
  {
    hide Count;
    WindowArithmetic(o, n, s);
    if Excess(o, n, s) {
      var last := o / s + Count(o, n, s) - 1;
      NotAligned(o, n, s);
      EndSector(o + n, last, s);
      DivMonotone(o, o + n, s);
    }
  }

  /** A sector of the window that the request misses is the spare one. */
  lemma MissedIsSpare(o: nat, n: nat, s: nat, k: nat)
    requires 0 < s && 0 < n && InWindow(k, o, n, s)
    requires o + n <= k * s || k * s + s <= o
    ensures Excess(o, n, s) && k == (o + n) / s + 1
  {
    var last := o / s + Count(o, n, s) - 1;
    WindowLast(o, n, s);
    if k * s + s <= o {
      assert (k + 1) * s == k * s + s;
      DivBound(o, k + 1, s);
    } else if !Excess(o, n, s) {
      MulMonotone(k, last, s);
    } else if k < last {
      DivBound(o + n, k, s);
      assert k < (o + n) / s || k == (o + n) / s;
      ReachesPast(o, n, s, k);
    }
  }

  lemma ReachesPast(o: nat, n: nat, s: nat, k: nat)
    requires 0 < s && Excess(o, n, s) && k <= (o + n) / s
    ensures k * s < o + n
  {
    DivMonotone(o, o + n, s);
    NotAligned(o, n, s);
    MulMonotone(k, (o + n) / s, s);
  }

  /** A direct window reaches a region it was not refused for only with its spare sector. */
  lemma SpareSector(l: Layout, o: nat, n: nat, k: nat)
    requires Sound(l) && Accepts(l, o, n) && InWindow(k, o, n, l.sectorSize) && Hover(l, k)
    ensures Excess(o, n, l.sectorSize) && k == (o + n) / l.sectorSize + 1
    ensures !Hover(l, k - 1)
  {
    var s := l.sectorSize;
    MissedSector(l, o, n, k);
    MissedIsSpare(o, n, s, k);
    if Hover(l, k - 1) {
      MissedSector(l, o, n, k - 1);
      WindowLast(o, n, s);
      MissedIsSpare(o, n, s, k - 1);
    }
  }

  lemma ProductSum(o: nat, n: nat, s: nat)
    requires 0 < s
    ensures o + n == (o / s + n / s) * s + (o % s + n % s)
  {
  }

  lemma NotAligned(o: nat, n: nat, s: nat)
    requires 0 < s && Excess(o, n, s)
    ensures (o + n) % s != 0
  {
    ProductSum(o, n, s);
    EndRemainder(o / s + n / s, o % s + n % s, s);
  }

  lemma EndSector(x: nat, last: int, s: nat)
    requires 0 < s && (last - 1) * s < x <= last * s && x % s != 0
    ensures x / s == last - 1
  {
    assert (last - 1) * s == last * s - s;
    if x == last * s {
      DivModUnique(last, 0, s);
    }
    DivIs(x, last - 1, s);
  }

  /** A sector of a region has no byte in an accepted request. */
  lemma MissedSector(l: Layout, o: nat, n: nat, k: nat)
    requires Sound(l) && Accepts(l, o, n) && Hover(l, k)
    ensures o + n <= k * l.sectorSize || k * l.sectorSize + l.sectorSize <= o
  {
    var s := l.sectorSize;
    var i :| 0 <= i < |l.regions| && Touches(l.regions[i], k * s, s);
    AlignedTouch(l.regions[i].addr, l.regions[i].size, k, s);
    assert !Touches(l.regions[i], o, n);
  }

  /** A clean request blanks nothing but what it writes. */
  lemma CleanPass(l: Layout, o: nat, n: nat, p: nat, a: nat)
    requires Sound(l) && IsPass(l, o, n, p) && Clean(l, o, n) && Blanked(l, p, n, a)
    ensures o <= a < o + n
  {
    hide Overlaps, Hover, Excess, Count, Invertible;
    var s := l.sectorSize;
    HeadHome(l, a);
    if l.virtualSize <= o {
      SpareSector(l, o, n, (a + l.backup) / s);
      ShiftDiv(a, l.backup / s, s);
      if a / s > 0 {
        BackupSectorHovers(l, (a + l.backup) / s - 1, a);
      }
    } else {
      HeadWindow(l, o, n, a);
      if o + n == l.virtualSize {
        DivModUnique(l.backupSectors, 0, s);
      }
      AlignedWindow(o, n, s, a);
    }
  }

  lemma BackupSectorHovers(l: Layout, k: nat, a: nat)
    requires Sound(l) && a < l.virtualSize && l.backup / l.sectorSize <= k < (a + l.backup) / l.sectorSize
    ensures Hover(l, k)
  {
    hide Sound;
    var i := BackupRegion(l);
    SectorBetween(l.backup, k, a + l.backup, l.sectorSize);
    assert Touches(l.regions[i], k * l.sectorSize, l.sectorSize);
  }

  lemma BackupRegion(l: Layout) returns (i: nat)
    requires Sound(l) && 0 < l.virtualSize
    ensures i < |l.regions| && l.regions[i] == Region(l.backup, l.virtualSize)
    ensures 0 < l.sectorSize && l.backup % l.sectorSize == 0
  {
    i :| 0 <= i < |l.regions| && l.regions[i] == Region(l.backup, l.virtualSize);
  }

  lemma SectorBetween(lo: nat, k: nat, hi: nat, s: nat)
    requires 0 < s && lo % s == 0 && lo / s <= k < hi / s
    ensures lo <= k * s && k * s + s <= hi
  {
    MulMonotone(lo / s, k, s);
    MulMonotone(k + 1, hi / s, s);
  }

  /** A request that is not clean blanks a byte of the head that it does not write. */
  lemma BlankedByte(l: Layout, o: nat, n: nat) returns (a: nat)
    requires Sound(l) && Accepts(l, o, n) && !Clean(l, o, n)
    ensures a < l.virtualSize && !(o <= a < o + n)
    ensures if l.virtualSize <= o then Blanked(l, o, n, a) else Blanked(l, o + l.backup, Min(n, l.virtualSize - o), a)
  {
    hide Overlaps, Hover, Invertible, Count;
    var s := l.sectorSize;
    if l.virtualSize <= o {
      a := 0;
      HeadHome(l, 0);
      WindowLast(o, n, s);
    } else {
      var m := Min(n, l.virtualSize - o);
      if o % s != 0 {
        a := o - 1;
        SameSector(o - 1, s);
        HitInWindow(o, o, m, s);
      } else {
        a := o + n;
        SameSector(o + n - 1, s);
        HitInWindow(o + n - 1, o, m, s);
      }
      HeadWindow(l, o, m, a);
    }
  }

  lemma SameSector(x: nat, s: nat)
    requires 0 < s && (x + 1) % s != 0
    ensures x / s == (x + 1) / s
  {
    DivModUnique((x + 1) / s, (x + 1) % s - 1, s);
  }

  /** A clean request is the write of a plain array. */
  lemma CleanIsFlat(l: Layout, v: seq<byte>, o: nat, data: seq<byte>)
    requires Sound(l) && |v| == l.volumeSize && Accepts(l, o, |data|) && Clean(l, o, |data|)
    ensures Wrote(l, v, o, data) == Flat(v, o, data)
  {
    var n := |data|;
    if Splits(l, o, n) {
      var m := l.virtualSize - o;
      SplitAccepts(l, o, n);
      DivModUnique(l.backupSectors, 0, l.sectorSize);
      forall a | 0 <= a < |v|
        ensures Wrote(l, v, o, data)[a] == Flat(v, o, data)[a]
      {
        if Blanked(l, o + l.backup, m, a) {
          CleanPass(l, o, m, o + l.backup, a);
        }
        if Blanked(l, l.virtualSize, n - m, a) {
          CleanPass(l, l.virtualSize, n - m, l.virtualSize, a);
        }
      }
    } else {
      var p := if l.virtualSize <= o then o else o + l.backup;
      forall a | 0 <= a < |v|
        ensures Wrote(l, v, o, data)[a] == Flat(v, o, data)[a]
      {
        if Blanked(l, p, n, a) {
          CleanPass(l, o, n, p, a);
        }
      }
    }
  }

  /** A disk every readable byte of which is 1. */
  ghost function Ones(l: Layout): (d: Disk)
    requires Sound(l)
    ensures DiskFits(l, d)
  {
    MulMonotone(1, l.sectorSize, l.volumeSize);
    var d := seq(l.volumeSize, k requires 0 <= k => EncodedOnes(l, k));
    assert l.volumeSize <= l.sectorSize * l.volumeSize == |d| * l.sectorSize;
    d
  }

  ghost function EncodedOnes(l: Layout, k: nat): (x: Sector)
    requires Sound(l)
    ensures |x| == l.sectorSize
  {
    l.cipher.enc(k, seq(l.sectorSize, _ => 1 as byte))
  }

  lemma HeadOfOnes(l: Layout, a: nat)
    requires Sound(l) && a < l.virtualSize
    ensures View(l, Ones(l))[a] == 1
  {
    HeadHome(l, a);
    HoverByte(l, a);
    var h := (a + l.backup) / l.sectorSize;
    assert !Overlaps(l.regions, a, 1);
    assert h < l.volumeSize && a / l.sectorSize < l.volumeSize by {
      DivBound(a + l.backup, l.volumeSize, l.sectorSize);
      MulMonotone(1, l.sectorSize, l.volumeSize);
      DivBound(a, l.volumeSize, l.sectorSize);
    }
    assert Ones(l)[h] == EncodedOnes(l, h);
  }

  /** Exactly when an accepted request is, on every disk, the write of a plain array. */
  lemma FlatExactlyWhenClean(l: Layout, o: nat, data: seq<byte>)
    requires Sound(l) && Accepts(l, o, |data|)
    ensures Clean(l, o, |data|) <==>
      forall d: Disk :: DiskFits(l, d) ==> View(l, Stored(l, d, o, data)) == Flat(View(l, d), o, data)
  {
    if Clean(l, o, |data|) {
      forall d: Disk | DiskFits(l, d)
        ensures View(l, Stored(l, d, o, data)) == Flat(View(l, d), o, data)
      {
        StoredView(l, d, o, data);
        CleanIsFlat(l, View(l, d), o, data);
      }
    } else {
      var d := Ones(l);
      var a := BlankedByte(l, o, |data|);
      StoredView(l, d, o, data);
      HeadOfOnes(l, a);
      assert Wrote(l, View(l, d), o, data)[a] == 0;
      assert Flat(View(l, d), o, data)[a] == 1;
    }
  }

  /** The smallest failure: one byte written at the start of the volume blanks the rest of its boot sector. */
  lemma OneByteBlanksTheBootSector(l: Layout, d: Disk, x: byte, a: nat)
    requires Sound(l) && DiskFits(l, d) && 0 < l.virtualSize && 0 < a < l.sectorSize
    ensures a < l.volumeSize && View(l, Stored(l, d, 0, [x]))[a] == 0
    ensures View(l, Stored(l, d, 0, [x]))[0] == x
  {
    var s := l.sectorSize;
    MulMonotone(1, l.backupSectors, s);
    assert Accepts(l, 0, 1);
    StoredView(l, d, 0, [x]);
    DivModUnique(0, a, s);
    DivModUnique(0, 1, s);
    DivModUnique(0, 0, s);
    HeadWindow(l, 0, 1, a);
    HitInWindow(0, 0, 1, s);
  }

  // ---- what is stored elsewhere ----

  /** The exact ciphertext of a sector that a pass writes no byte of. */
  lemma PassFrame(l: Layout, d: Disk, p: nat, data: seq<byte>, k: nat)
    requires Sound(l) && DiskFits(l, d) && l.backupSectors <= k < |d|
    requires p + |data| <= k * l.sectorSize || k * l.sectorSize + l.sectorSize <= p
    ensures Rewrite(l, d, p, data)[k] ==
      if InWindow(k, p, |data|, l.sectorSize) && Hover(l, k) then l.cipher.enc(k, Zeros(l.sectorSize)) else d[k]
  {
    if InWindow(k, p, |data|, l.sectorSize) {
      assert Patched(l, d, k, p, data) == ReadSector(l, d, k);
    }
  }

  /** Where logical byte `a` is stored. */
  function Physical(l: Layout, a: nat): nat {
    if a < l.virtualSize then a + l.backup else a
  }

  /** Every sector outside the metadata that holds no byte of the request keeps its ciphertext. */
  lemma StoredFrame(l: Layout, d: Disk, o: nat, data: seq<byte>, k: nat)
    requires Sound(l) && DiskFits(l, d) && Accepts(l, o, |data|) && k < |d| && !Hover(l, k)
    requires forall a :: o <= a < o + |data| ==> Physical(l, a) / l.sectorSize != k
    ensures Stored(l, d, o, data)[k] == d[k]
  {
    if Splits(l, o, |data|) {
      var m := l.virtualSize - o;
      SplitAccepts(l, o, |data|);
      PassKeeps(l, d, o, o + l.backup, data[..m], k);
      PassKeeps(l, Rewrite(l, d, o + l.backup, data[..m]), l.virtualSize, l.virtualSize, data[m..], k);
    } else if l.virtualSize <= o {
      PassKeeps(l, d, o, o, data, k);
    } else {
      PassKeeps(l, d, o, o + l.backup, data, k);
    }
  }

  lemma PassKeeps(l: Layout, d: Disk, o: nat, p: nat, data: seq<byte>, k: nat)
    requires Sound(l) && DiskFits(l, d) && IsPass(l, o, |data|, p) && k < |d| && !Hover(l, k)
    requires forall a :: o <= a < o + |data| ==> Physical(l, a) / l.sectorSize != k
    ensures Rewrite(l, d, p, data)[k] == d[k]
  {
    if k < l.backupSectors {
      DivBound(p, l.backupSectors, l.sectorSize);
    } else {
      PassMisses(l, o, |data|, p, k);
      PassFrame(l, d, p, data, k);
    }
  }

  lemma PassMisses(l: Layout, o: nat, n: nat, p: nat, k: nat)
    requires Sound(l) && IsPass(l, o, n, p)
    requires forall a :: o <= a < o + n ==> Physical(l, a) / l.sectorSize != k
    ensures p + n <= k * l.sectorSize || k * l.sectorSize + l.sectorSize <= p
  {
    if k * l.sectorSize < p + n && p < k * l.sectorSize + l.sectorSize {
      var a := PassMeets(l, o, n, p, k);
    }
  }

  lemma PassMeets(l: Layout, o: nat, n: nat, p: nat, k: nat) returns (a: nat)
    requires Sound(l) && IsPass(l, o, n, p)
    requires k * l.sectorSize < p + n && p < k * l.sectorSize + l.sectorSize
    ensures o <= a < o + n && Physical(l, a) / l.sectorSize == k
  {
    var s := l.sectorSize;
    var x := if p <= k * s then k * s else p;
    DivModUnique(k, x - k * s, s);
    a := o + (x - p);
  }

  // ---- whole runs ----

  /** A request to write, and what the environment grants its passes. */
  datatype Request = Request(at: int, data: seq<byte>, grant: Grant, first: Grant)

  function Reached(l: Layout, open: bool, w: Request): nat {
    Reaches(l, open, w.at, |w.data|, w.grant, w.first)
  }

  /** The bytes that reach the disk are a request of their own that the volume accepts. */
  lemma ReachedAccepts(l: Layout, open: bool, w: Request)
    requires Sound(l)
    ensures var k := Reached(l, open, w); k > 0 ==> Accepts(l, w.at, k)
  {
    var n := Min(|w.data|, l.volumeSize - w.at);
    if 0 <= w.at && Splits(l, w.at, n) && Overlaps(l.regions, w.at, l.virtualSize - w.at) {
      OverlapsGrows(l.regions, w.at, l.virtualSize - w.at, n);
    }
  }

  /** What a request makes of the view: refused, failed, clipped, halved or whole. */
  function Asked(l: Layout, open: bool, v: seq<byte>, w: Request): (v': seq<byte>)
    requires 0 < l.sectorSize
    ensures |v'| == |v|
  {
    var k := Reached(l, open, w);
    if k == 0 then v else Wrote(l, v, w.at, w.data[..k])
  }

  function AskedRun(l: Layout, open: bool, v: seq<byte>, ws: seq<Request>): (v': seq<byte>)
    requires 0 < l.sectorSize
    ensures |v'| == |v|
  {
    if ws == [] then v else Asked(l, open, AskedRun(l, open, v, ws[..|ws| - 1]), ws[|ws| - 1])
  }

  /** A plain array that receives in turn the bytes of each request that reach the disk. */
  function FlatRun(l: Layout, open: bool, v: seq<byte>, ws: seq<Request>): (v': seq<byte>)
    ensures |v'| == |v|
  {
    if ws == [] then v
    else
      var so, w := FlatRun(l, open, v, ws[..|ws| - 1]), ws[|ws| - 1];
      var k := Reached(l, open, w);
      if k == 0 then so else Flat(so, w.at, w.data[..k])
  }

  predicate CleanRequest(l: Layout, open: bool, w: Request)
    requires 0 < l.sectorSize
  {
    var k := Reached(l, open, w);
    k > 0 ==> Clean(l, w.at, k)
  }

  lemma {:induction false} CleanRunIsFlat(l: Layout, open: bool, v: seq<byte>, ws: seq<Request>)
    requires Sound(l) && |v| == l.volumeSize && forall w :: w in ws ==> CleanRequest(l, open, w)
    ensures AskedRun(l, open, v, ws) == FlatRun(l, open, v, ws)
  {
    hide Wrote, Flat, Reached, Clean;
    if ws != [] {
      var w := ws[|ws| - 1];
      assert w in ws;
      CleanRunIsFlat(l, open, v, ws[..|ws| - 1]);
      ReachedAccepts(l, open, w);
      var k := Reached(l, open, w);
      if k > 0 {
        ReachedIn(l, open, w);
        CleanIsFlat(l, AskedRun(l, open, v, ws[..|ws| - 1]), w.at, w.data[..k]);
      }
    }
  }

  lemma ReachedIn(l: Layout, open: bool, w: Request)
    ensures Reached(l, open, w) <= |w.data| && (Reached(l, open, w) > 0 ==> 0 <= w.at)
  {
  }

  /** Any run of requests, whatever becomes of each. */
  method WriteAll(c: Context, ws: seq<Request>)
    requires c.Valid()
    modifies c`sectors
    ensures c.Valid()
    ensures View(c.layout, c.sectors) == AskedRun(c.layout, c.Open(), old(View(c.layout, c.sectors)), ws)
    ensures !c.complete || !c.safe || c.readOnly ==> c.sectors == old(c.sectors)
  {
    hide View, Asked, Sound, DiskFits;
    ghost var v := View(c.layout, c.sectors);
    SectorsHaveSize(c.layout);
    for i := 0 to |ws|
      invariant c.Valid()
      invariant View(c.layout, c.sectors) == AskedRun(c.layout, c.Open(), v, ws[..i])
      invariant !c.complete || !c.safe || c.readOnly ==> c.sectors == old(c.sectors)
    {
      assert ws[..i + 1][..i] == ws[..i];
      WriteOne(c, ws[i]);
    }
    assert ws[..|ws|] == ws;
  }

  lemma SectorsHaveSize(l: Layout)
    requires Sound(l)
    ensures 0 < l.sectorSize
  {
  }

  method WriteOne(c: Context, w: Request)
    requires c.Valid()
    modifies c`sectors
    ensures c.Valid() && 0 < c.layout.sectorSize
    ensures View(c.layout, c.sectors) == Asked(c.layout, c.Open(), old(View(c.layout, c.sectors)), w)
    ensures !c.complete || !c.safe || c.readOnly ==> c.sectors == old(c.sectors)
  {
    hide View, Wrote, Stored, Sound, DiskFits, Accepts;
    SectorsHaveSize(c.layout);
    ghost var d, k := c.sectors, Reached(c.layout, c.Open(), w);
    ReachedAccepts(c.layout, c.Open(), w);
    ReachedIn(c.layout, c.Open(), w);
    if k > 0 {
      StoredView(c.layout, d, w.at, w.data[..k]);
    }
    var ret := c.Enlock(w.data, w.at, |w.data|, w.grant, w.first);
  }

  /**
   Any run of requests, clipped, refused or failed ones among them, then any read: the
   bytes a plain array would hold, when every request that reached the disk is clean.
  */
  method WriteThenRead(c: Context, ws: seq<Request>, buffer: array<byte>, offset: nat, size: nat) returns (ret: int)
    requires c.Valid() && c.complete && c.safe
    requires 0 < size <= INT_MAX && offset + size <= c.layout.volumeSize && size <= buffer.Length
    modifies c`sectors, buffer
    ensures ret == size && c.Valid()
    ensures c.readOnly ==> buffer[..size] == old(View(c.layout, c.sectors))[offset..offset + size]
    ensures buffer[..size] == AskedRun(c.layout, c.Open(), old(View(c.layout, c.sectors)), ws)[offset..offset + size]
    ensures (forall w :: w in ws ==> CleanRequest(c.layout, c.Open(), w)) ==>
      buffer[..size] == FlatRun(c.layout, c.Open(), old(View(c.layout, c.sectors)), ws)[offset..offset + size]
  {
    hide Sound, DiskFits, CleanRequest, Asked;
    ghost var v := View(c.layout, c.sectors);
    SectorsHaveSize(c.layout);
    WriteAll(c, ws);
    ret := Read(c, buffer, offset, size);
    if forall w :: w in ws ==> CleanRequest(c.layout, c.Open(), w) {
      CleanRunIsFlat(c.layout, c.Open(), v, ws);
    }
  }

  method Read(c: Context, buffer: array<byte>, offset: nat, size: nat) returns (ret: int)
    requires c.Valid() && c.complete && c.safe
    requires 0 < size <= INT_MAX && offset + size <= c.layout.volumeSize && size <= buffer.Length
    modifies buffer
    ensures ret == size && buffer[..size] == View(c.layout, c.sectors)[offset..offset + size]
  {
    hide Sound, DiskFits, LogicalByte;
    ret := c.Dislock(buffer, offset, size, Grant(true, true, true));
  }
}
