/**
  The disk check before a full read: from the sizes the source reports and the free
  space, whether to refuse, warn, pass, or say that it cannot tell. Sums are 64-bit
  and wrap; the wrap is written out.
 */
module DiskVerdict {

  import opened Prelude

  const U64 := 0x1_0000_0000_0000_0000
  const PEAK_TENTHS := 18
  const REFUSE_TENTHS := 5

  /** What the source said (`doctor.DumpEstimate`): data plus indexes, data alone, and tables it gave no real size for. */
  datatype Estimate = Estimate(bytes: int, dataBytes: int, tables: nat, unsized: nat, compressed: nat)

  /** Where the Parquet copy goes, and the free space there when it is another disk; `None` when it cannot be measured. */
  datatype Layout = SameDisk | OtherDisk(outFree: Option<nat>) | CannotTell(outFree: Option<nat>)

  datatype Verdict = Refuse | Low | Room | Unchecked

  function Wrap(x: nat): nat {
    x % U64
  }

  function Need(est: Estimate): nat {
    Max(est.bytes, 0)
  }

  function Data(est: Estimate): nat {
    Max(est.dataBytes, 0)
  }

  function Peak(est: Estimate): nat {
    Wrap(Need(est) * PEAK_TENTHS) / 10
  }

  function RefusalLine(est: Estimate): nat {
    Wrap(Data(est) * REFUSE_TENTHS) / 10
  }

  /** Every table reported its real size. */
  predicate Vouched(est: Estimate) {
    est.compressed == 0 && est.unsized == 0
  }

  /** `roomVerdict`. */
  function RoomVerdict(est: Estimate): Verdict {
    if est.compressed > 0 || est.unsized > 0 then Unchecked else Room
  }

  /** `dumpDiskVerdict`. */
  function Check(estimate: Option<Estimate>, stageFree: Option<nat>, layout: Layout): Verdict {
    if estimate.None? then Unchecked
    else if estimate.value.tables == 0 then Room
    else if stageFree.None? then Unchecked
    else
      var est, free := estimate.value, stageFree.value;
      var need := Need(est);
      if need == 0 && est.unsized > 0 then Unchecked
      else if free < RefusalLine(est) then Refuse
      else if free < need then Low
      else
        var out := match layout
                   case SameDisk => None
                   case OtherDisk(outFree) =>
                     if outFree.None? then Some(Unchecked) else if outFree.value < need then Some(Low) else Some(RoomVerdict(est))
                   case CannotTell(outFree) =>
                     if outFree.None? then Some(Unchecked) else if outFree.value < need then Some(Low) else None;
        if out.Some? then out.value
        else if free < Peak(est) then Low
        else RoomVerdict(est)
  }

  function Rank(v: Verdict): nat {
    match v
    case Refuse => 0
    case Low => 1
    case Room => 2
    case Unchecked => 2
  }

  /** More space in the working folder never makes the verdict worse, wrapped sums included. */
  lemma MoreSpaceIsNeverWorse(estimate: Option<Estimate>, free: nat, more: nat, layout: Layout)
    requires free <= more
    ensures Rank(Check(estimate, Some(free), layout)) <= Rank(Check(estimate, Some(more), layout))
  {
  }

  /** It never refuses on a guess, and what it refuses could not hold half the data, let alone the dump. */
  lemma RefusalIsMeasured(estimate: Option<Estimate>, stageFree: Option<nat>, layout: Layout)
    requires Check(estimate, stageFree, layout) == Refuse
    ensures estimate.Some? && estimate.value.tables > 0 && stageFree.Some?
    ensures 2 * stageFree.value < Data(estimate.value)
    ensures estimate.value.dataBytes <= estimate.value.bytes && Need(estimate.value) * REFUSE_TENTHS < U64 ==>
              Check(Some(estimate.value.(dataBytes := estimate.value.bytes)), stageFree, layout) == Refuse
  {
    var est := estimate.value;
    assert Wrap(Data(est) * REFUSE_TENTHS) <= Data(est) * REFUSE_TENTHS;
  }

  /** It refuses exactly when a measured disk holds less than half the data of tables whose sizes were given, in whole bytes; sums that wrap draw a lower line. */
  lemma RefusesExactly(estimate: Option<Estimate>, stageFree: Option<nat>, layout: Layout)
    ensures Check(estimate, stageFree, layout) == Refuse <==>
            && estimate.Some? && estimate.value.tables > 0 && stageFree.Some? && (Need(estimate.value) > 0 || estimate.value.unsized == 0)
            && 10 * (stageFree.value + 1) <= Data(estimate.value) * REFUSE_TENTHS % U64
    ensures estimate.Some? && Data(estimate.value) * REFUSE_TENTHS < U64 && stageFree.Some? ==>
              (10 * (stageFree.value + 1) <= Data(estimate.value) * REFUSE_TENTHS % U64 <==> 2 * (stageFree.value + 1) <= Data(estimate.value))
  {
  }

  /** Where the copy goes is measured and too small for it, or was not measured. */
  predicate OutLow(est: Estimate, layout: Layout) {
    !layout.SameDisk? && layout.outFree.Some? && layout.outFree.value < Need(est)
  }

  predicate OutUnknown(layout: Layout) {
    !layout.SameDisk? && layout.outFree.None?
  }

  /**
    Below room it says low exactly when it does not refuse and some measured disk is too
    small: for the dump, for the copy beside it, or for both where they may share it; and
    everything else it cannot tell.
   */
  lemma LowExactly(est: Estimate, free: nat, layout: Layout)
    requires est.tables > 0
    ensures var v := Check(Some(est), Some(free), layout);
            && (v == Low <==>
                  && v != Refuse && (Need(est) > 0 || est.unsized == 0)
                  && (|| free < Need(est) || OutLow(est, layout)
                      || (!layout.OtherDisk? && !OutUnknown(layout) && 10 * (free + 1) <= Need(est) * PEAK_TENTHS % U64)))
            && (v == Unchecked <==>
                  || (Need(est) == 0 && est.unsized > 0)
                  || (v != Refuse && v != Low && (OutUnknown(layout) || !Vouched(est))))
  {
  }

  /** Without an estimate or a measured disk it says that it cannot tell, and with no tables that there is room. */
  lemma UnmeasuredExactly(estimate: Option<Estimate>, stageFree: Option<nat>, layout: Layout)
    requires estimate.None? || estimate.value.tables == 0 || stageFree.None?
    ensures Check(estimate, stageFree, layout) == if estimate.Some? && estimate.value.tables == 0 then Room else Unchecked
  {
  }

  // --------------------------------------------------------------- what fits

  /** A dump and its Parquet copy no larger than the estimate and the measured peak allow. */
  predicate Within(est: Estimate, dump: nat, parquet: nat) {
    dump <= Need(est) && parquet <= Need(est) && 10 * (dump + parquet) <= PEAK_TENTHS * Need(est)
  }

  predicate Fits(stageFree: nat, layout: Layout, dump: nat, parquet: nat) {
    match layout
    case SameDisk => dump + parquet <= stageFree
    case OtherDisk(outFree) => dump <= stageFree && outFree.Some? && parquet <= outFree.value
    case CannotTell(outFree) => dump + parquet <= stageFree && outFree.Some? && parquet <= outFree.value
  }

  /** Whatever is written, within the estimate, fits. */
  ghost predicate AlwaysFits(est: Estimate, stageFree: nat, layout: Layout) {
    forall dump: nat, parquet: nat | Within(est, dump, parquet) :: Fits(stageFree, layout, dump, parquet)
  }

  /** The largest dumps the estimate allows decide whether all of them fit. */
  lemma WorstCases(est: Estimate, free: nat, layout: Layout)
    ensures AlwaysFits(est, free, layout) <==>
            match layout
            case SameDisk => Need(est) * PEAK_TENTHS / 10 <= free
            case OtherDisk(out) => Need(est) <= free && out.Some? && Need(est) <= out.value
            case CannotTell(out) => Need(est) * PEAK_TENTHS / 10 <= free && out.Some? && Need(est) <= out.value
  {
    var n := Need(est);
    var most := n * PEAK_TENTHS / 10 - n;
    assert Within(est, n, most);
    assert Within(est, most, n);
    assert Within(est, n, 0);
  }

  /** Half the data is never more than the dump, wrapped or not. */
  lemma RefusalLineIsLow(est: Estimate)
    requires est.dataBytes <= est.bytes
    ensures RefusalLine(est) <= Need(est)
  {
    assert Wrap(Data(est) * REFUSE_TENTHS) <= Data(est) * REFUSE_TENTHS;
  }

  /** The check passes a read exactly when the sizes can be trusted and every dump within them fits. */
  ghost predicate Exact(est: Estimate, free: nat, layout: Layout) {
    Check(Some(est), Some(free), layout) == Room <==> Vouched(est) && AlwaysFits(est, free, layout)
  }

  /** The peak of the dump and the copy together is looked at, and does not fit in 64 bits. */
  predicate PeakWraps(est: Estimate, layout: Layout) {
    && Vouched(est) && Need(est) * PEAK_TENTHS >= U64
    && match layout
       case SameDisk => true
       case OtherDisk(_) => false
       case CannotTell(out) => out.Some? && Need(est) <= out.value
  }

  lemma RoomMeansItFits(est: Estimate, free: nat, layout: Layout)
    requires est.tables > 0 && est.dataBytes <= est.bytes && !PeakWraps(est, layout)
    ensures Exact(est, free, layout)
  {
    WorstCases(est, free, layout);
    RefusalLineIsLow(est);
    PeakIsHigh(est);
  }

  /** Where it does not wrap, the peak is no less than the dump. */
  lemma PeakIsHigh(est: Estimate)
    ensures Need(est) * PEAK_TENTHS < U64 ==> Peak(est) == Need(est) * PEAK_TENTHS / 10 >= Need(est)
  {
  }

  /** Where the peak wraps, some free space passes the check although a dump within the estimate does not fit. */
  lemma WrappedPeakPassesTooMuch(est: Estimate, layout: Layout) returns (free: nat)
    requires est.tables > 0 && est.dataBytes <= est.bytes < U64 && PeakWraps(est, layout)
    ensures Check(Some(est), Some(free), layout) == Room && !AlwaysFits(est, free, layout)
  {
    var n := Need(est);
    free := Max(n, Peak(est));
    RefusalLineIsLow(est);
    assert Wrap(n * PEAK_TENTHS) <= n * PEAK_TENTHS - U64;
    WorstCases(est, free, layout);
    assert free < n * PEAK_TENTHS / 10;
  }

  /** Whatever is free, the check is exact: if and only if the peak, where it is looked at, stays in 64 bits. */
  lemma ExactUnlessThePeakWraps(est: Estimate, layout: Layout)
    requires est.tables > 0 && est.dataBytes <= est.bytes < U64
    ensures (forall free: nat :: Exact(est, free, layout)) <==> !PeakWraps(est, layout)
  {
    if PeakWraps(est, layout) {
      var free := WrappedPeakPassesTooMuch(est, layout);
      assert !Exact(est, free, layout);
    } else {
      forall free: nat
        ensures Exact(est, free, layout)
      {
        RoomMeansItFits(est, free, layout);
      }
    }
  }
}
