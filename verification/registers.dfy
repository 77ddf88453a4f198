/** The register space behind BAR 0: hdma.h's channel blocks and iatu.h's
    address-translation regions, and what programming one region changes. */
module Registers {
  import opened Words
  import opened Engine

  /** The 32-bit registers of BAR 0 by offset. */
  type RegFile = nat -> u32

  function Set(rf: RegFile, at: nat, v: u32): RegFile {
    (a: nat) => if a == at then v else rf(a)
  }

  datatype ChanReg =
    | En | Doorbell | ElemPf | LlpLow | LlpHigh | CycleOff | XferSize | SarLow | SarHigh | DarLow | DarHigh
    | Watermark | Control1 | FuncNum | Qos | Status | IntStatus | IntSetup | IntClear
    | MsiStopLow | MsiStopHigh | MsiWatermarkLow | MsiWatermarkHigh | MsiAbortLow | MsiAbortHigh | MsiMsgd

  function Offset(r: ChanReg): nat {
    match r
    case En => 0x0 case Doorbell => 0x4 case ElemPf => 0x8
    case LlpLow => 0x10 case LlpHigh => 0x14 case CycleOff => 0x18 case XferSize => 0x1c
    case SarLow => 0x20 case SarHigh => 0x24 case DarLow => 0x28 case DarHigh => 0x2c
    case Watermark => 0x30 case Control1 => 0x34 case FuncNum => 0x38 case Qos => 0x3c
    case Status => 0x80 case IntStatus => 0x84 case IntSetup => 0x88 case IntClear => 0x8c
    case MsiStopLow => 0x90 case MsiStopHigh => 0x94 case MsiWatermarkLow => 0x98 case MsiWatermarkHigh => 0x9c
    case MsiAbortLow => 0xa0 case MsiAbortHigh => 0xa4 case MsiMsgd => 0xa8
  }

  /** hdma_base is 0x1000 into the BAR; write channels come first in each block. */
  function Address(dir: Direction, n: nat, r: ChanReg): nat {
    0x1000 + (if dir == RdCh then 0x400 else 0) + n * 0x800 + Offset(r)
  }

  datatype AtuDir = Outbound | Inbound

  datatype AtuReg = Ctrl1 | Ctrl2 | LwrBase | UpperBase | Limit | LwrTarget | UpperTarget | UpperLimit

  function AtuOffset(r: AtuReg): nat {
    match r
    case Ctrl1 => 0x0 case Ctrl2 => 0x4 case LwrBase => 0x8 case UpperBase => 0xc
    case Limit => 0x10 case LwrTarget => 0x14 case UpperTarget => 0x18 case UpperLimit => 0x20
  }

  function AtuAddress(dir: AtuDir, n: nat, r: AtuReg): nat {
    0x9000 + n * 0x200 + (if dir == Inbound then 0x100 else 0) + AtuOffset(r)
  }

  function ChanRegAt(off: nat): ChanReg {
    if off < 0x20 then
      (if off == 0x0 then En else if off == 0x4 then Doorbell else if off == 0x8 then ElemPf
       else if off == 0x10 then LlpLow else if off == 0x14 then LlpHigh else if off == 0x18 then CycleOff else XferSize)
    else if off < 0x80 then
      (if off == 0x20 then SarLow else if off == 0x24 then SarHigh else if off == 0x28 then DarLow
       else if off == 0x2c then DarHigh else if off == 0x30 then Watermark else if off == 0x34 then Control1
       else if off == 0x38 then FuncNum else Qos)
    else
      (if off == 0x80 then Status else if off == 0x84 then IntStatus else if off == 0x88 then IntSetup
       else if off == 0x8c then IntClear else if off == 0x90 then MsiStopLow else if off == 0x94 then MsiStopHigh
       else if off == 0x98 then MsiWatermarkLow else if off == 0x9c then MsiWatermarkHigh
       else if off == 0xa0 then MsiAbortLow else if off == 0xa4 then MsiAbortHigh else MsiMsgd)
  }

  lemma OffsetBound(r: ChanReg)
    ensures Offset(r) <= 0xa8 && ChanRegAt(Offset(r)) == r
  {
  }

  /** No two registers of any two channels share an address. */
  lemma AddressInjective(d: Direction, n: nat, r: ChanReg, d': Direction, n': nat, r': ChanReg)
    ensures Address(d, n, r) == Address(d', n', r') <==> d == d' && n == n' && r == r'
  {
    hide Offset, ChanRegAt;
    OffsetBound(r);
    OffsetBound(r');
  }

  /** A channel's block lies below the translation regions exactly for the
      indices the driver admits. */
  lemma BelowAtu(d: Direction, n: nat, r: ChanReg, ad: AtuDir, an: nat, ar: AtuReg)
    ensures Address(d, n, r) < 0x9000 <==> n < 16
    ensures n < 16 ==> Address(d, n, r) + 4 <= AtuAddress(ad, an, ar)
  {
    hide Offset, ChanRegAt;
    OffsetBound(r);
  }

  lemma AtuOffsets(r: AtuReg, r': AtuReg)
    ensures AtuOffset(r) <= 0x20 && (AtuOffset(r) == AtuOffset(r') <==> r == r')
  {
  }

  lemma AtuAddressInjective(d: AtuDir, n: nat, r: AtuReg, d': AtuDir, n': nat, r': AtuReg)
    ensures AtuAddress(d, n, r) == AtuAddress(d', n', r') <==> d == d' && n == n' && r == r'
  {
    hide AtuOffset;
    AtuOffsets(r, r');
    AtuOffsets(r', r);
  }

  /** What a region's registers say, as the translation unit decodes them. */
  datatype Region = Region(target: u64, size: u32, ctrl2: u32) {
    predicate Matches(bar: nat) {
      ctrl2 / 0x8000_0000 % 2 == 1 && ctrl2 / 0x4000_0000 % 2 == 1 && ctrl2 / 0x100 % 8 == bar
    }
  }

  function RegionOf(rf: RegFile, dir: AtuDir, n: nat): Region {
    Region(Join(rf(AtuAddress(dir, n, LwrTarget)), rf(AtuAddress(dir, n, UpperTarget))),
           rf(AtuAddress(dir, n, Ctrl1)), rf(AtuAddress(dir, n, Ctrl2)))
  }

  /** The four stores of iatu_map_inbound_bar and iatu_map_outbound_bar, in order. */
  function MapWrites(dir: AtuDir, n: nat, bar: nat, addr: u64, size: nat): (ws: seq<(nat, u32)>)
    requires bar < 8
    ensures |ws| == 4
  {
    [(AtuAddress(dir, n, LwrTarget), Lo32(addr)),
     (AtuAddress(dir, n, UpperTarget), Hi32(addr)),
     (AtuAddress(dir, n, Ctrl1), size % 0x200_0000),
     (AtuAddress(dir, n, Ctrl2), 0xc000_0000 + bar * 0x100)]
  }

  function SetAll(rf: RegFile, ws: seq<(nat, u32)>): RegFile {
    if ws == [] then rf
    else Set(SetAll(rf, ws[..|ws| - 1]), ws[|ws| - 1].0, ws[|ws| - 1].1)
  }

  lemma {:induction false} SetAllElsewhere(rf: RegFile, ws: seq<(nat, u32)>, at: nat)
    requires forall i | 0 <= i < |ws| :: ws[i].0 != at
    ensures SetAll(rf, ws)(at) == rf(at)
  {
    if ws != [] {
      SetAllElsewhere(rf, ws[..|ws| - 1], at);
    }
  }

  /** The last store to an address decides its value. */
  lemma {:induction false} SetAllLast(rf: RegFile, ws: seq<(nat, u32)>, k: nat)
    requires k < |ws| && forall i | k < i < |ws| :: ws[i].0 != ws[k].0
    ensures SetAll(rf, ws)(ws[k].0) == ws[k].1
  {
    if k < |ws| - 1 {
      SetAllLast(rf, ws[..|ws| - 1], k);
    }
  }

  /** Programming one region in one direction sets exactly that region, whatever
      it held, and changes no other region and no channel register. */
  lemma MapSetsOneRegion(rf: RegFile, dir: AtuDir, n: nat, bar: nat, addr: u64, size: nat)
    requires bar < 8 && size <= 0x100_0000
    ensures var rf' := SetAll(rf, MapWrites(dir, n, bar, addr, size));
      && RegionOf(rf', dir, n) == Region(addr, size, 0xc000_0000 + bar * 0x100)
      && (forall d, m: nat | (d, m) != (dir, n) :: RegionOf(rf', d, m) == RegionOf(rf, d, m))
      && (forall d, m: nat, r | m < 16 :: rf'(Address(d, m, r)) == rf(Address(d, m, r)))
  {
    var ws := MapWrites(dir, n, bar, addr, size);
    var rf' := SetAll(rf, ws);
    forall i | 0 <= i < 4 ensures rf'(ws[i].0) == ws[i].1 {
      SetAllLast(rf, ws, i);
    }
    assert rf'(ws[0].0) == Lo32(addr) && rf'(ws[1].0) == Hi32(addr) && rf'(ws[2].0) == size && rf'(ws[3].0) == 0xc000_0000 + bar * 0x100;
    forall d, m: nat | (d, m) != (dir, n) ensures RegionOf(rf', d, m) == RegionOf(rf, d, m) {
      forall r: AtuReg ensures rf'(AtuAddress(d, m, r)) == rf(AtuAddress(d, m, r)) {
        forall r': AtuReg ensures AtuAddress(d, m, r) != AtuAddress(dir, n, r') {
          AtuAddressInjective(d, m, r, dir, n, r');
        }
        SetAllElsewhere(rf, ws, AtuAddress(d, m, r));
      }
    }
    forall d, m: nat, r | m < 16 ensures rf'(Address(d, m, r)) == rf(Address(d, m, r)) {
      forall r': AtuReg ensures Address(d, m, r) != AtuAddress(dir, n, r') {
        BelowAtu(d, m, r, dir, n, r');
      }
      SetAllElsewhere(rf, ws, Address(d, m, r));
    }
  }

  lemma RegionMatches(r: Region, bar: nat, bar': nat)
    requires bar < 8 && bar' < 8 && r.ctrl2 == 0xc000_0000 + bar * 0x100
    ensures r.Matches(bar') <==> bar == bar'
  {
  }
}
