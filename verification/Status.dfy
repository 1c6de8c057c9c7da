/** The status logger: machine-integer arithmetic of the transit estimate and of the
    byte formatting. */
module Status {
  import opened Types

  const TWO_63: int := 0x8000_0000_0000_0000
  const TWO_64: int := 0x1_0000_0000_0000_0000

  newtype uint64 = x: int | 0 <= x < 0x1_0000_0000_0000_0000

  // ------------------------------------------------------------- formatBytes

  const UNIT: uint64 := 1024

  function Pow1024(n: nat): nat {
    if n == 0 then 1 else 1024 * Pow1024(n - 1)
  }

  lemma {:induction false} PowGrows(m: nat, n: nat)
    requires m <= n
    ensures 0 < Pow1024(m) <= Pow1024(n)
    decreases n
  {
    if m < n {
      PowGrows(m, n - 1);
    } else if n > 0 {
      PowGrows(m - 1, n - 1);
    }
  }

  /** How a byte count is rendered: as it is, or divided by `div` with a unit letter. */
  datatype Format = Plain(b: uint64) | Scaled(b: uint64, div: uint64, letter: char)

  const LETTERS: string := "KMGTPE"

  /** The loop of `formatBytes` finds the largest power of 1024 that does not exceed
      the count; the divisor never overflows and there is a letter for it. */
  method FormatBytes(b: uint64) returns (f: Format)
    ensures f.Plain? <==> b < UNIT
    ensures f.b == b
    ensures f.Scaled? ==> exists exp: nat ::
              && exp < |LETTERS| && f.letter == LETTERS[exp]
              && f.div as int == Pow1024(exp + 1)
              && f.div as int <= b as int < 1024 * f.div as int
  {
    if b < UNIT {
      return Plain(b);
    }
    var div: uint64, exp: nat := UNIT, 0;
    var n := b / UNIT;
    ScaleStart(b as int);
    while n >= UNIT
      invariant Scales(b as int, div as int, n as int, exp)
    {
      ScaleStep(b as int, div as int, n as int, exp);
      div := div * UNIT;
      exp := exp + 1;
      n := n / UNIT;
    }
    ScaleEnd(b as int, div as int, n as int, exp);
    f := Scaled(b, div, LETTERS[exp]);
  }

  ghost predicate Scales(b: nat, div: nat, n: nat, exp: nat) {
    exp < 6 && div == Pow1024(exp + 1) && div > 0 && n == b / div && n > 0
  }

  lemma ScaleStart(b: nat)
    requires b >= 1024
    ensures Scales(b, 1024, b / 1024, 0)
  {
    assert Pow1024(1) == 1024 * Pow1024(0);
  }

  /** The next power still divides: below 2^64 there are letters enough. */
  lemma ScaleStep(b: nat, div: nat, n: nat, exp: nat)
    requires Scales(b, div, n, exp) && n >= 1024 && b < TWO_64
    ensures Scales(b, 1024 * div, n / 1024, exp + 1) && 1024 * div <= b
  {
    NextPower(b, div, n);
    assert Pow1024(exp + 2) == 1024 * div;
    if exp == 5 {
      PowSix();
      assert false;
    }
  }

  lemma ScaleEnd(b: nat, div: nat, n: nat, exp: nat)
    requires Scales(b, div, n, exp) && n < 1024
    ensures div <= b < 1024 * div
  {
    Bounds(b, div);
    Mono(n + 1, 1024, div);
    Mono(1, n, div);
  }

  lemma PowSix()
    ensures Pow1024(6) == 0x1000_0000_0000_0000
  {
    assert Pow1024(2) == 1024 * 1024;
    assert Pow1024(4) == 1024 * (1024 * Pow1024(2));
  }

  lemma NextPower(b: nat, div: nat, n: nat)
    requires div > 0 && n == b / div && n >= 1024
    ensures 1024 * div <= b && n / 1024 == b / (1024 * div)
  {
    Bounds(b, div);
    var q := n / 1024;
    assert q * 1024 <= n < q * 1024 + 1024;
    Mono(q * 1024, n, div);
    Mono(n + 1, q * 1024 + 1024, div);
    assert q * (1024 * div) == (q * 1024) * div;
    assert (q + 1) * (1024 * div) == (q * 1024 + 1024) * div;
    Quotient(b, 1024 * div, q);
    Mono(1024, n, div);
  }

  lemma Mono(x: nat, y: nat, k: nat)
    requires x <= y
    ensures x * k <= y * k
  {
  }

  lemma Bounds(b: nat, div: nat)
    requires div > 0
    ensures (b / div) * div <= b < (b / div + 1) * div
  {
  }

  lemma Quotient(b: nat, d: nat, q: nat)
    requires d > 0 && q * d <= b < (q + 1) * d
    ensures b / d == q
  {
    Bounds(b, d);
    var r := b / d;
    if r < q {
      Mono(r + 1, q, d);
    } else if r > q {
      Mono(q + 1, r, d);
    }
  }

  /** The rendering is the only one with that property. */
  lemma {:induction false} FormatIsUnique(b: nat, m: nat, n: nat)
    requires Pow1024(m) <= b < 1024 * Pow1024(m)
    requires Pow1024(n) <= b < 1024 * Pow1024(n)
    ensures m == n
  {
    if m < n {
      PowGrows(m + 1, n);
    } else if n < m {
      PowGrows(n + 1, m);
    }
  }

  // ----------------------------------------------------------- reportTransit

  /** Go's int64(x) of a 64-bit pattern, and any int64 result that wraps. */
  function Wrap(x: int): (y: int)
    ensures -TWO_63 <= y < TWO_63
  {
    (x + TWO_63) % TWO_64 - TWO_63
  }

  /** int64(a) - int64(b), wrapping. */
  function Delta(a: uint64, b: uint64): int {
    Wrap(Wrap(a as int) - Wrap(b as int))
  }

  /** The wrapped difference of two counters is the true one exactly when that fits
      int64. */
  lemma DeltaIsExact(a: uint64, b: uint64)
    ensures Delta(a, b) == a as int - b as int <==> -TWO_63 <= a as int - b as int < TWO_63
  {
  }

  const TRANSIT_THRESHOLD: int := 0x10_0000

  /** One report: no peer is up, or the link and session totals at that moment. */
  datatype Report = NoPeers | Totals(link: uint64, session: uint64)

  class StatusLogger {
    var prevLink: uint64
    var prevSession: uint64
    var started: bool

    constructor ()
      ensures !started
    {
      prevLink, prevSession, started := 0, 0, false;
    }

    function View(): Memory
      reads this
    {
      Memory(started, prevLink, prevSession)
    }

    /** The warned volume, if any. */
    method ReportTransit(linkBytes: uint64, sessionBytes: uint64) returns (warned: Option<int>)
      modifies this
      ensures View() == Memory(true, linkBytes, sessionBytes)
      ensures warned == Warning(old(View()), Totals(linkBytes, sessionBytes))
    {
      if !started {
        prevLink, prevSession, started := linkBytes, sessionBytes, true;
        return None;
      }
      var dLink := Delta(linkBytes, prevLink);
      var dSession := Delta(sessionBytes, prevSession);
      prevLink, prevSession := linkBytes, sessionBytes;
      if dLink <= 0 || dSession < 0 {
        return None;
      }
      var transit := Wrap(dLink - dSession);
      if transit > TRANSIT_THRESHOLD && transit > dLink / 5 {
        return Some(transit);
      }
      return None;
    }

    /** `report`, as far as the estimate is concerned. */
    method Report(r: Report) returns (warned: Option<int>)
      modifies this
      ensures warned == Warning(old(View()), r)
      ensures View() == Remember(old(View()), r)
    {
      if r.NoPeers? {
        started := false;
        return None;
      }
      warned := ReportTransit(r.link, r.session);
    }
  }

  /** The fields of the logger. */
  datatype Memory = Memory(started: bool, prevLink: uint64, prevSession: uint64)

  function Remember(m: Memory, r: Report): Memory {
    if r.NoPeers? then m.(started := false) else Memory(true, r.link, r.session)
  }

  /** The transit volume a report warns about. */
  function Warning(m: Memory, r: Report): Option<int> {
    if r.NoPeers? || !m.started then None
    else
      var dLink, dSession := Delta(r.link, m.prevLink), Delta(r.session, m.prevSession);
      var transit := dLink - dSession;
      if dLink > 0 && dSession >= 0 && transit > TRANSIT_THRESHOLD && transit > dLink / 5 then Some(transit) else None
  }

  /** A warned volume is positive, above the threshold and never more than the link
      traffic of its interval. */
  lemma WarningIsBounded(m: Memory, r: Report)
    requires Warning(m, r).Some?
    ensures m.started && r.Totals?
    ensures TRANSIT_THRESHOLD < Warning(m, r).value <= Delta(r.link, m.prevLink)
  {
  }

  /** When a warning is due, in the true growth of the two counters (as long as they fit int64):
      not at a first report, not after a reset, and otherwise exactly if the links carried
      more than a mebibyte, and more than a fifth of their traffic, beyond the sessions. */
  lemma WarnsExactly(m: Memory, link: uint64, session: uint64)
    requires -TWO_63 <= link as int - m.prevLink as int < TWO_63
    requires -TWO_63 <= session as int - m.prevSession as int < TWO_63
    ensures var carried, own := link as int - m.prevLink as int, session as int - m.prevSession as int;
            var transit := carried - own;
            var due := m.started && carried > 0 && own >= 0 && transit > 1_048_576 && 5 * transit > carried;
            Warning(m, Totals(link, session)) == if due then Some(transit) else None
  {
    DeltaIsExact(link, m.prevLink);
    DeltaIsExact(session, m.prevSession);
  }

  /** The counters only grow, and by less than 2^63 a report. */
  ghost predicate Growing(m: Memory, rs: seq<Report>)
    decreases |rs|
  {
    rs == [] ||
    (&& rs[0].Totals?
     && (m.started ==> 0 <= rs[0].link as int - m.prevLink as int < TWO_63)
     && Growing(Remember(m, rs[0]), rs[1..]))
  }

  function Warned(m: Memory, rs: seq<Report>): int
    decreases |rs|
  {
    if rs == [] then 0
    else (if Warning(m, rs[0]).Some? then Warning(m, rs[0]).value else 0) + Warned(Remember(m, rs[0]), rs[1..])
  }

  function PositiveDeltas(m: Memory, rs: seq<Report>): int
    decreases |rs|
  {
    if rs == [] then 0
    else
      (if m.started && rs[0].Totals? && Delta(rs[0].link, m.prevLink) > 0 then Delta(rs[0].link, m.prevLink) else 0)
      + PositiveDeltas(Remember(m, rs[0]), rs[1..])
  }

  /** Over any reports, the warned volumes add up to no more than the positive link
      deltas. */
  lemma {:induction false} WarnedWithinLinkTraffic(m: Memory, rs: seq<Report>)
    ensures 0 <= Warned(m, rs) <= PositiveDeltas(m, rs)
    decreases |rs|
  {
    if rs != [] {
      WarnedWithinLinkTraffic(Remember(m, rs[0]), rs[1..]);
      if Warning(m, rs[0]).Some? {
        WarningIsBounded(m, rs[0]);
      }
    }
  }

  /** Over reports with peers and growing counters these deltas telescope: what was
      warned about in all is at most what the links carried in all. */
  lemma {:induction false} WarnedWithinCarried(m: Memory, rs: seq<Report>)
    requires m.started && rs != [] && Growing(m, rs)
    ensures rs[|rs| - 1].Totals?
    ensures PositiveDeltas(m, rs) == rs[|rs| - 1].link as int - m.prevLink as int
    ensures Warned(m, rs) <= rs[|rs| - 1].link as int - m.prevLink as int
    decreases |rs|
  {
    WarnedWithinLinkTraffic(m, rs);
    DeltaIsExact(rs[0].link, m.prevLink);
    if |rs| > 1 {
      WarnedWithinCarried(Remember(m, rs[0]), rs[1..]);
      assert rs[1..][|rs| - 2] == rs[|rs| - 1];
    } else {
      assert rs[1..] == [];
    }
  }
}
