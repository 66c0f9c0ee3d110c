/** The block device: a flat byte array addressed by cylinder and sector. */
module Disk {
  import opened Bytes
  import opened Results

  lemma MulMono(x: int, y: int, d: nat)
    requires x <= y
    ensures x * d <= y * d
  {
  }

  lemma SectorInRange(ncyl: nat, nsec: nat, c: nat, s: nat)
    requires c < ncyl && s < nsec
    ensures c * nsec + s < ncyl * nsec
  {
    MulMono(c + 1, ncyl, nsec);
  }

  lemma QuotientUnique(d: nat, q: int, r: int, q': int, r': int)
    requires 0 <= r < d && 0 <= r' < d && q * d + r == q' * d + r'
    ensures q == q' && r == r'
  {
    if q < q' {
      MulMono(q + 1, q', d);
    } else if q' < q {
      MulMono(q' + 1, q, d);
    }
  }

  /** Block numbers and (cylinder, sector) pairs name each other one to one. */
  lemma AddressBijection(ncyl: nat, nsec: nat, b: nat, c: nat, s: nat)
    requires 0 < nsec && b < ncyl * nsec && c < ncyl && s < nsec
    ensures b / nsec < ncyl && b % nsec < nsec && b / nsec * nsec + b % nsec == b
    ensures c * nsec + s < ncyl * nsec
    ensures (c * nsec + s) / nsec == c && (c * nsec + s) % nsec == s
  {
    SectorInRange(ncyl, nsec, c, s);
    QuotientUnique(nsec, c, s, (c * nsec + s) / nsec, (c * nsec + s) % nsec);
    if ncyl <= b / nsec {
      MulMono(ncyl, b / nsec, nsec);
    }
  }

  /** The first `n` blocks of a byte array. */
  function Sectors(d: seq<byte>, n: nat): (bs: seq<Block>)
    requires BSIZE * n <= |d|
    ensures |bs| == n
  {
    seq(n, b requires 0 <= b < n => d[BSIZE * b..BSIZE * b + BSIZE])
  }

  /** Overwriting one sector's bytes changes that block and no other. */
  lemma SectorsOfPatch(d: seq<byte>, n: nat, b: nat, s: Block)
    requires BSIZE * n <= |d| && b < n
    ensures Sectors(Patch(d, BSIZE * b, s), n) == Sectors(d, n)[b := s]
  {
    var d' := Patch(d, BSIZE * b, s);
    forall c | 0 <= c < n ensures Sectors(d', n)[c] == Sectors(d, n)[b := s][c] {
      assert d'[BSIZE * c..BSIZE * c + BSIZE] == if c == b then s else d[BSIZE * c..BSIZE * c + BSIZE];
    }
  }

  class Disk {
    const ncyl: nat
    const nsec: nat
    const data: array<byte>

    ghost predicate Valid() {
      0 < nsec && data.Length == BSIZE * (ncyl * nsec)
    }

    /** The device as a sequence of blocks. */
    ghost function Blocks(): (bs: seq<Block>)
      requires Valid()
      reads data
      ensures |bs| == ncyl * nsec
    {
      Sectors(data[..], ncyl * nsec)
    }

    /** Reads sector `sec` of cylinder `cyl`; fails exactly on an address off the disk. */
    method CmdR(cyl: int, sec: int) returns (r: Option<Block>)
      requires Valid()
      ensures r.Some? <==> 0 <= cyl < ncyl && 0 <= sec < nsec
      ensures r.Some? ==> 0 <= cyl * nsec + sec < ncyl * nsec && r.value == Blocks()[cyl * nsec + sec]
    {
      if cyl >= ncyl || sec >= nsec || cyl < 0 || sec < 0 {
        return None;
      }
      SectorInRange(ncyl, nsec, cyl, sec);
      var offset := cyl * nsec * BSIZE + sec * BSIZE;
      assert offset == BSIZE * (cyl * nsec + sec);
      r := Some(data[offset..offset + BSIZE]);
      assert r.value == data[..][offset..offset + BSIZE];
    }

    /** Writes the first `len` bytes of `src` to one sector, zero-padded; every other
        sector keeps its bytes. The check is against lengths above 512 alone: what `memcpy` is
        asked for must be there, unless the write is refused. */
    method CmdW(cyl: int, sec: int, len: int, src: seq<byte>) returns (ok: bool)
      requires Valid()
      requires 0 <= cyl < ncyl && 0 <= sec < nsec && len <= BSIZE ==> 0 <= len <= |src|
      modifies data
      ensures ok <==> 0 <= cyl < ncyl && 0 <= sec < nsec && len <= BSIZE
      ensures !ok ==> Blocks() == old(Blocks())
      ensures ok ==>
                && 0 <= cyl * nsec + sec < ncyl * nsec
                && Blocks() == old(Blocks())[cyl * nsec + sec := src[..len] + Zero()[len..]]
    {
      if cyl >= ncyl || sec >= nsec || cyl < 0 || sec < 0 {
        return false;
      }
      if len > BSIZE {
        return false;
      }
      SectorInRange(ncyl, nsec, cyl, sec);
      ghost var b := cyl * nsec + sec;
      var offset := cyl * nsec * BSIZE + sec * BSIZE;
      assert offset == BSIZE * b;
      forall k | 0 <= k < len { data[offset + k] := src[k]; }
      forall k | len <= k < BSIZE { data[offset + k] := 0; }
      ghost var block: Block := src[..len] + Zero()[len..];
      assert data[..] == Patch(old(data[..]), BSIZE * b, block);
      SectorsOfPatch(old(data[..]), ncyl * nsec, b, block);
      return true;
    }
  }
}
