/** Fraud scoring and automatic blacklisting (app/services/fraud_service.py,
    app/workers/blacklist_worker.py). */
module Fraud {
  import opened Types

  type DeviceHash = nat

  datatype Kind =
    | PlayIntegrityFail | PlayIntegrityNoToken | DeviceRooted | EmulatorDetected | HardwareKeyMissing
    | ImpossibleTravel | RapidDeviceSwitch | UnusualSpendPattern | MultipleFailedPins | OffHoursActivity
    | DoubleSpendAttempt | TokenReplay | SerialMismatch | InvalidSignature | AmountManipulation
    | FaceMismatch | IdVerificationFailed | MultipleIdAttempts
    | LowTrustScore | OtherSignal(code: nat)

  /** Kinds that are not in the table, the low trust score among them, count 10. */
  function Score(kind: Kind): nat {
    match kind
    case PlayIntegrityFail => 30
    case PlayIntegrityNoToken => 25
    case DeviceRooted => 35
    case EmulatorDetected => 40
    case HardwareKeyMissing => 15
    case ImpossibleTravel => 50
    case RapidDeviceSwitch => 20
    case UnusualSpendPattern => 15
    case MultipleFailedPins => 25
    case OffHoursActivity => 10
    case DoubleSpendAttempt => 45
    case TokenReplay => 50
    case SerialMismatch => 35
    case InvalidSignature => 40
    case AmountManipulation => 45
    case FaceMismatch => 30
    case IdVerificationFailed => 25
    case MultipleIdAttempts => 20
    case LowTrustScore => 10
    case OtherSignal(_) => 10
  }

  /** The table, by score. */
  lemma {:induction false} ScoreTable(kind: Kind)
    ensures Score(kind) == 50 <==> kind in {ImpossibleTravel, TokenReplay}
    ensures Score(kind) == 45 <==> kind in {DoubleSpendAttempt, AmountManipulation}
    ensures Score(kind) == 40 <==> kind in {EmulatorDetected, InvalidSignature}
    ensures Score(kind) == 35 <==> kind in {DeviceRooted, SerialMismatch}
    ensures Score(kind) == 30 <==> kind in {PlayIntegrityFail, FaceMismatch}
    ensures Score(kind) == 25 <==> kind in {PlayIntegrityNoToken, MultipleFailedPins, IdVerificationFailed}
    ensures Score(kind) == 20 <==> kind in {RapidDeviceSwitch, MultipleIdAttempts}
    ensures Score(kind) == 15 <==> kind in {HardwareKeyMissing, UnusualSpendPattern}
    ensures Score(kind) == 10 <==> kind in {OffHoursActivity, LowTrustScore} || kind.OtherSignal?
    ensures Score(kind) in {10, 15, 20, 25, 30, 35, 40, 45, 50}
  {
  }

  const THRESHOLD := 60
  const SIGNAL_LIMIT := 3
  const DOUBLE_SPEND_LIMIT := 2
  const INTEGRITY_LIMIT := 3
  const WEEK := 7 * 86400

  datatype Signal = Signal(device: DeviceHash, kind: Kind, score: nat, at: Instant)

  datatype Query = AnySignal | DoubleSpends | IntegrityFails

  predicate Hits(q: Query, s: Signal, now: Instant) {
    && s.at >= now - WEEK
    && match q
       case AnySignal => true
       case DoubleSpends => s.kind.DoubleSpendAttempt?
       case IntegrityFails => s.kind.PlayIntegrityFail? || s.kind.PlayIntegrityNoToken?
  }

  function Count(signals: seq<Signal>, d: DeviceHash, q: Query, now: Instant): nat {
    if signals == [] then 0
    else
      var last := signals[|signals| - 1];
      Count(signals[..|signals| - 1], d, q, now) + if last.device == d && Hits(q, last, now) then 1 else 0
  }

  /** _get_historical_device_score. */
  function WindowScore(signals: seq<Signal>, d: DeviceHash, now: Instant): nat {
    if signals == [] then 0
    else
      var last := signals[|signals| - 1];
      WindowScore(signals[..|signals| - 1], d, now)
      + if last.device == d && last.at >= now - WEEK then last.score else 0
  }

  /** Which signals of a device a query looks at: those of the last seven days, of any kind
      or of the kinds in question. */
  predicate Seen(s: Signal, d: DeviceHash, q: Query, now: Instant) {
    && s.device == d
    && now - s.at <= 604800
    && (q == DoubleSpends ==> s.kind == DoubleSpendAttempt)
    && (q == IntegrityFails ==> s.kind in {PlayIntegrityFail, PlayIntegrityNoToken})
  }

  lemma {:induction false} SeenStep(signals: seq<Signal>, d: DeviceHash, q: Query, now: Instant)
    requires signals != []
    ensures var n := |signals| - 1;
            |set i | 0 <= i < |signals| && Seen(signals[i], d, q, now)|
            == |set i | 0 <= i < n && Seen(signals[..n][i], d, q, now)|
               + if Seen(signals[n], d, q, now) then 1 else 0
  {
    hide Seen;
    var n := |signals| - 1;
    var front := set i | 0 <= i < n && Seen(signals[..n][i], d, q, now);
    var all := set i | 0 <= i < |signals| && Seen(signals[i], d, q, now);
    assert all == if Seen(signals[n], d, q, now) then front + {n} else front;
  }

  lemma {:induction false} SeenHits(s: Signal, d: DeviceHash, q: Query, now: Instant)
    ensures Seen(s, d, q, now) <==> s.device == d && Hits(q, s, now)
  {
  }

  lemma {:induction false} CountMeans(signals: seq<Signal>, d: DeviceHash, q: Query, now: Instant)
    ensures Count(signals, d, q, now) == |set i | 0 <= i < |signals| && Seen(signals[i], d, q, now)|
  {
    if signals != [] {
      hide Seen, Hits;
      var n := |signals| - 1;
      CountMeans(signals[..n], d, q, now);
      SeenStep(signals, d, q, now);
      SeenHits(signals[n], d, q, now);
    }
  }

  /** The score of a device is that of its signals of the last seven days. */
  lemma {:induction false} WindowScoreMeans(signals: seq<Signal>, s: Signal, d: DeviceHash, now: Instant)
    ensures WindowScore([], d, now) == 0
    ensures WindowScore(signals + [s], d, now) ==
            WindowScore(signals, d, now) + if Seen(s, d, AnySignal, now) then s.score else 0
  {
    assert (signals + [s])[..|signals|] == signals;
  }

  function KindScore(kinds: seq<Kind>): nat {
    if kinds == [] then 0 else KindScore(kinds[..|kinds| - 1]) + Score(kinds[|kinds| - 1])
  }

  function Recorded(signals: seq<Signal>, d: DeviceHash, kinds: seq<Kind>, now: Instant): seq<Signal> {
    if kinds == [] then signals
    else
      var n := |kinds| - 1;
      Recorded(signals, d, kinds[..n], now) + [Signal(d, kinds[n], Score(kinds[n]), now)]
  }

  /** What a checkpoint adds up before recording is what the window holds afterwards. */
  lemma {:induction false} ScoreIsWindowAfter(signals: seq<Signal>, d: DeviceHash, kinds: seq<Kind>, now: Instant)
    ensures KindScore(kinds) + WindowScore(signals, d, now) == WindowScore(Recorded(signals, d, kinds, now), d, now)
  {
    if kinds != [] {
      var n := |kinds| - 1;
      ScoreIsWindowAfter(signals, d, kinds[..n], now);
      var front := Recorded(signals, d, kinds[..n], now);
      assert Recorded(signals, d, kinds, now)[..|front|] == front;
    }
  }

  // ------------------------------------------------------------------ blacklisting

  /** The stored texts.  Those of the scan always name the seven days; of the online ones
      only that for the plain number of signals does. */
  datatype Reason = BySignals(n: nat) | ByDoubleSpends(n: nat, inWeek: bool) | ByIntegrity(n: nat, inWeek: bool)

  /** _check_auto_blacklist: the plain number of signals is looked at first. */
  function OnlineVerdict(signals: seq<Signal>, d: DeviceHash, now: Instant): Option<Reason> {
    var all := Count(signals, d, AnySignal, now);
    var doubles := Count(signals, d, DoubleSpends, now);
    var integrity := Count(signals, d, IntegrityFails, now);
    if all >= SIGNAL_LIMIT then Some(BySignals(all))
    else if doubles >= 2 then Some(ByDoubleSpends(doubles, false))
    else if integrity >= 3 then Some(ByIntegrity(integrity, false))
    else None
  }

  /** _determine_blacklist_reason: the plain number of signals comes last. */
  function ScanReason(signals: seq<Signal>, d: DeviceHash, now: Instant): Reason {
    var doubles := Count(signals, d, DoubleSpends, now);
    var integrity := Count(signals, d, IntegrityFails, now);
    if doubles >= DOUBLE_SPEND_LIMIT then ByDoubleSpends(doubles, true)
    else if integrity >= INTEGRITY_LIMIT then ByIntegrity(integrity, true)
    else BySignals(Count(signals, d, AnySignal, now))
  }

  /** Which count makes the online check list a device, and which the scan names. */
  lemma {:induction false} VerdictsMean(signals: seq<Signal>, d: DeviceHash, now: Instant)
    ensures var all := Count(signals, d, AnySignal, now);
            var doubles := Count(signals, d, DoubleSpends, now);
            var integrity := Count(signals, d, IntegrityFails, now);
            var online := OnlineVerdict(signals, d, now);
            var scan := ScanReason(signals, d, now);
            && (online == None <==> all < 3 && doubles < 2 && integrity < 3)
            && (online == Some(BySignals(all)) <==> 3 <= all)
            && (online == Some(ByDoubleSpends(doubles, false)) <==> all < 3 && 2 <= doubles)
            && (online == Some(ByIntegrity(integrity, false)) <==> all < 3 && doubles < 2 && 3 <= integrity)
            && (scan == ByDoubleSpends(doubles, true) <==> 2 <= doubles)
            && (scan == ByIntegrity(integrity, true) <==> doubles < 2 && 3 <= integrity)
            && (scan == BySignals(all) <==> doubles < 2 && integrity < 3)
  {
  }

  function CheckOnline(signals: seq<Signal>, blacklist: map<DeviceHash, Reason>, d: DeviceHash,
          now: Instant)
    : map<DeviceHash, Reason>
  {
    if d in blacklist || OnlineVerdict(signals, d, now).None? then blacklist
    else blacklist[d := OnlineVerdict(signals, d, now).value]
  }

  /** SELECT device ... GROUP BY device HAVING count(*) >= n. */
  function Group(signals: seq<Signal>, q: Query, n: nat, now: Instant): set<DeviceHash> {
    set s | s in signals && Hits(q, s, now) && Count(signals, s.device, q, now) >= n :: s.device
  }

  function Candidates(signals: seq<Signal>, now: Instant): set<DeviceHash> {
    Group(signals, AnySignal, SIGNAL_LIMIT, now)
    + Group(signals, DoubleSpends, DOUBLE_SPEND_LIMIT, now)
    + Group(signals, IntegrityFails, INTEGRITY_LIMIT, now)
  }

  function Scan(signals: seq<Signal>, blacklist: map<DeviceHash, Reason>, now: Instant): map<DeviceHash, Reason> {
    blacklist + map d | d in Candidates(signals, now) - blacklist.Keys :: ScanReason(signals, d, now)
  }

  /** A scan adds the devices with three signals, two double spends or three integrity
      failures in the window, and leaves those listed before as they are. */
  lemma {:induction false} ScanDoes(signals: seq<Signal>, blacklist: map<DeviceHash, Reason>, now: Instant,
          d: DeviceHash)
    ensures var after := Scan(signals, blacklist, now);
            && (d in after <==>
                  || d in blacklist
                  || 3 <= Count(signals, d, AnySignal, now)
                  || 2 <= Count(signals, d, DoubleSpends, now)
                  || 3 <= Count(signals, d, IntegrityFails, now))
            && (d in blacklist ==> after[d] == blacklist[d])
            && (d in after && d !in blacklist ==> after[d] == ScanReason(signals, d, now))
  {
    CandidatesAreOnline(signals, now, d);
  }

  lemma {:induction false} ScanIs(signals: seq<Signal>, before: map<DeviceHash, Reason>,
          after: map<DeviceHash, Reason>, now: Instant)
    requires forall d :: d in after <==> d in before || d in Candidates(signals, now)
    requires forall d | d in after :: after[d] == if d in before then before[d] else ScanReason(signals, d, now)
    ensures after == Scan(signals, before, now)
  {
    assert after.Keys == Scan(signals, before, now).Keys;
  }

  lemma {:induction false} CountPositive(signals: seq<Signal>, d: DeviceHash, q: Query, now: Instant)
    requires 0 < Count(signals, d, q, now)
    ensures exists s :: s in signals && s.device == d && Hits(q, s, now)
  {
    var n := |signals| - 1;
    if signals[n].device == d && Hits(q, signals[n], now) {
      assert signals[n] in signals;
    } else {
      CountPositive(signals[..n], d, q, now);
      var s :| s in signals[..n] && s.device == d && Hits(q, s, now);
      assert s in signals;
    }
  }

  lemma {:induction false} CountsNested(signals: seq<Signal>, d: DeviceHash, now: Instant)
    ensures Count(signals, d, DoubleSpends, now)
            + Count(signals, d, IntegrityFails, now) <= Count(signals, d, AnySignal, now)
  {
    if signals != [] {
      CountsNested(signals[..|signals| - 1], d, now);
    }
  }

  lemma {:induction false} GroupMeans(signals: seq<Signal>, q: Query, n: nat, now: Instant, d: DeviceHash)
    requires 0 < n
    ensures d in Group(signals, q, n, now) <==> Count(signals, d, q, now) >= n
  {
    if Count(signals, d, q, now) >= n {
      CountPositive(signals, d, q, now);
    }
  }

  /** The three grouped queries together select exactly the devices the online check
      would blacklist. */
  lemma {:induction false} CandidatesAreOnline(signals: seq<Signal>, now: Instant, d: DeviceHash)
    ensures d in Candidates(signals, now) <==> OnlineVerdict(signals, d, now).Some?
  {
    GroupMeans(signals, AnySignal, SIGNAL_LIMIT, now, d);
    GroupMeans(signals, DoubleSpends, DOUBLE_SPEND_LIMIT, now, d);
    GroupMeans(signals, IntegrityFails, INTEGRITY_LIMIT, now, d);
  }

  function CheckAll(signals: seq<Signal>, blacklist: map<DeviceHash, Reason>, ds: seq<DeviceHash>,
          now: Instant)
    : map<DeviceHash, Reason>
  {
    if ds == [] then blacklist
    else CheckOnline(signals, CheckAll(signals, blacklist, ds[..|ds| - 1], now), ds[|ds| - 1], now)
  }

  lemma {:induction false} CheckAllKeys(signals: seq<Signal>, blacklist: map<DeviceHash, Reason>,
          ds: seq<DeviceHash>, now: Instant)
    ensures forall d: DeviceHash :: d in CheckAll(signals, blacklist, ds, now) <==>
              d in blacklist || (d in ds && OnlineVerdict(signals, d, now).Some?)
  {
    if ds != [] {
      var n := |ds| - 1;
      CheckAllKeys(signals, blacklist, ds[..n], now);
      assert ds == ds[..n] + [ds[n]];
    }
  }

  /** Folding the online check over all devices with a signal, in any order, blacklists
      exactly the devices the periodic scan does. */
  lemma {:induction false} OnlineEqualsScan(signals: seq<Signal>, blacklist: map<DeviceHash, Reason>,
          ds: seq<DeviceHash>, now: Instant)
    requires forall s | s in signals :: s.device in ds
    ensures CheckAll(signals, blacklist, ds, now).Keys == Scan(signals, blacklist, now).Keys
  {
    CheckAllKeys(signals, blacklist, ds, now);
    forall d: DeviceHash
      ensures d in CheckAll(signals, blacklist, ds, now) <==> d in Scan(signals, blacklist, now)
    {
      CandidatesAreOnline(signals, now, d);
      if d in Candidates(signals, now) {
        assert d in ds;
      }
    }
  }

  /** The two give the same reason exactly to a device with three or more signals that has
      neither enough double spends nor enough integrity failures to be named for them. */
  lemma {:induction false} ReasonsAgreeIff(signals: seq<Signal>, d: DeviceHash, now: Instant)
    requires OnlineVerdict(signals, d, now).Some?
    ensures OnlineVerdict(signals, d, now).value == ScanReason(signals, d, now) <==>
            && Count(signals, d, AnySignal, now) >= SIGNAL_LIMIT
            && Count(signals, d, DoubleSpends, now) < DOUBLE_SPEND_LIMIT
            && Count(signals, d, IntegrityFails, now) < INTEGRITY_LIMIT
  {
    CountsNested(signals, d, now);
  }

  // --------------------------------------------------------- is the scan ever needed

  datatype Desk = Desk(signals: seq<Signal>, blacklist: map<DeviceHash, Reason>)

  /** A checkpoint records what it found and then runs the online check on the device. */
  function Checkpoint(desk: Desk, d: DeviceHash, kinds: seq<Kind>, now: Instant): Desk {
    var signals := Recorded(desk.signals, d, kinds, now);
    Desk(signals, CheckOnline(signals, desk.blacklist, d, now))
  }

  /** record_signal, for signals injected by hand, does not run the check. */
  function RecordOnly(desk: Desk, d: DeviceHash, kind: Kind, now: Instant): Desk {
    desk.(signals := Recorded(desk.signals, d, [kind], now))
  }

  /** Every device that qualifies is on the list already. */
  /** Each kind found becomes one signal of the device, in order, with the score of the
      kind. */
  lemma {:induction false} RecordsEach(signals: seq<Signal>, d: DeviceHash, kinds: seq<Kind>, now: Instant)
    ensures var after := Recorded(signals, d, kinds, now);
            && signals <= after && |after| == |signals| + |kinds|
            && forall i | 0 <= i < |kinds| :: after[|signals| + i] == Signal(d, kinds[i], Score(kinds[i]), now)
  {
    if kinds != [] {
      RecordsEach(signals, d, kinds[..|kinds| - 1], now);
    }
  }

  /** A checkpoint lists its own device at most, and iff it was not listed and has enough
      signals by then. */
  lemma {:induction false} CheckpointDoes(desk: Desk, d: DeviceHash, kinds: seq<Kind>, now: Instant,
          other: DeviceHash)
    ensures var after := Checkpoint(desk, d, kinds, now);
            && after.signals == Recorded(desk.signals, d, kinds, now)
            && (other in after.blacklist <==>
                  || other in desk.blacklist
                  || (&& other == d
                      && (|| 3 <= Count(after.signals, d, AnySignal, now)
                          || 2 <= Count(after.signals, d, DoubleSpends, now)
                          || 3 <= Count(after.signals, d, IntegrityFails, now))))
            && (other in desk.blacklist ==> after.blacklist[other] == desk.blacklist[other])
            && (other in after.blacklist && other !in desk.blacklist ==>
                  Some(after.blacklist[other]) == OnlineVerdict(after.signals, d, now))
  {
  }

  ghost predicate UpToDate(desk: Desk, now: Instant) {
    forall d: DeviceHash :: d !in desk.blacklist ==> OnlineVerdict(desk.signals, d, now).None?
  }

  lemma {:induction false} CountFades(signals: seq<Signal>, d: DeviceHash, q: Query, now: Instant, later: Instant)
    requires now <= later
    ensures Count(signals, d, q, later) <= Count(signals, d, q, now)
  {
    if signals != [] {
      CountFades(signals[..|signals| - 1], d, q, now, later);
    }
  }

  lemma {:induction false} OthersUncounted(signals: seq<Signal>, d: DeviceHash, kinds: seq<Kind>, now: Instant,
          other: DeviceHash, q: Query)
    requires other != d
    ensures Count(Recorded(signals, d, kinds, now), other, q, now) == Count(signals, other, q, now)
  {
    if kinds != [] {
      var n := |kinds| - 1;
      OthersUncounted(signals, d, kinds[..n], now, other, q);
      var front := Recorded(signals, d, kinds[..n], now);
      assert Recorded(signals, d, kinds, now)[..|front|] == front;
    }
  }

  lemma {:induction false} StaysUpToDate(desk: Desk, now: Instant, later: Instant)
    requires UpToDate(desk, now) && now <= later
    ensures UpToDate(desk, later)
  {
    forall d: DeviceHash | d !in desk.blacklist ensures OnlineVerdict(desk.signals, d, later).None? {
      CountFades(desk.signals, d, AnySignal, now, later);
      CountFades(desk.signals, d, DoubleSpends, now, later);
      CountFades(desk.signals, d, IntegrityFails, now, later);
    }
  }

  /** One visit to a checkpoint. */
  datatype Visit = Visit(device: DeviceHash, kinds: seq<Kind>, at: Instant)

  function Visits(desk: Desk, visits: seq<Visit>): Desk {
    if visits == [] then desk
    else
      var v := visits[|visits| - 1];
      Checkpoint(Visits(desk, visits[..|visits| - 1]), v.device, v.kinds, v.at)
  }

  ghost predicate Ordered(start: Instant, visits: seq<Visit>, end: Instant) {
    && start <= end
    && (forall i | 0 <= i < |visits| :: start <= visits[i].at <= end)
    && (forall i, j | 0 <= i < j < |visits| :: visits[i].at <= visits[j].at)
  }

  lemma {:induction false} CheckpointKeepsUpToDate(desk: Desk, d: DeviceHash, kinds: seq<Kind>, now: Instant)
    requires UpToDate(desk, now)
    ensures UpToDate(Checkpoint(desk, d, kinds, now), now)
  {
    var after := Checkpoint(desk, d, kinds, now);
    forall other: DeviceHash | other !in after.blacklist
      ensures OnlineVerdict(after.signals, other, now).None?
    {
      if other != d {
        OthersUncounted(desk.signals, d, kinds, now, other, AnySignal);
        OthersUncounted(desk.signals, d, kinds, now, other, DoubleSpends);
        OthersUncounted(desk.signals, d, kinds, now, other, IntegrityFails);
      }
    }
  }

  /** When every signal comes in through a checkpoint and the clock does not go back, the
      periodic scan, whenever it runs, finds nobody the checkpoints have not listed. */
  lemma {:induction false} ScanFindsNothingNew(desk: Desk, start: Instant, visits: seq<Visit>, now: Instant)
    requires UpToDate(desk, start) && Ordered(start, visits, now)
    ensures var after := Visits(desk, visits);
            UpToDate(after, now) && Scan(after.signals, after.blacklist, now) == after.blacklist
  {
    VisitsUpToDate(desk, start, visits, now);
    var after := Visits(desk, visits);
    forall d: DeviceHash ensures d in Candidates(after.signals, now) ==> d in after.blacklist {
      CandidatesAreOnline(after.signals, now, d);
    }
    assert Candidates(after.signals, now) - after.blacklist.Keys == {};
  }

  lemma {:induction false} VisitsUpToDate(desk: Desk, start: Instant, visits: seq<Visit>, now: Instant)
    requires UpToDate(desk, start) && Ordered(start, visits, now)
    ensures UpToDate(Visits(desk, visits), now)
  {
    if visits == [] {
      StaysUpToDate(desk, start, now);
    } else {
      var n := |visits| - 1;
      var v := visits[n];
      VisitsUpToDate(desk, start, visits[..n], v.at);
      CheckpointKeepsUpToDate(Visits(desk, visits[..n]), v.device, v.kinds, v.at);
      StaysUpToDate(Visits(desk, visits), v.at, now);
    }
  }

  lemma {:induction false} RecordedOne(signals: seq<Signal>, d: DeviceHash, kind: Kind, now: Instant)
    ensures var one := Signal(d, kind, Score(kind), now);
            && Recorded(signals, d, [kind], now) == signals + [one]
            && forall q ::
                 Count(signals + [one], d, q, now) == Count(signals, d, q, now) + if Hits(q, one, now) then 1 else 0
  {
    var one := Signal(d, kind, Score(kind), now);
    assert [kind][..0] == [];
    assert (signals + [one])[..|signals|] == signals;
  }

  /** A signal injected by hand leaves nothing for the scan if and only if the device is
      listed already, or has at most one signal in the window and this is not its second
      double spend. */
  lemma {:induction false} RecordOnlyKeepsIff(desk: Desk, d: DeviceHash, kind: Kind, now: Instant)
    requires UpToDate(desk, now)
    ensures UpToDate(RecordOnly(desk, d, kind, now), now) <==>
            || d in desk.blacklist
            || (Count(desk.signals, d, AnySignal, now) < 2
                && !(kind.DoubleSpendAttempt? && Count(desk.signals, d, DoubleSpends, now) >= 1))
  {
    RecordedOne(desk.signals, d, kind, now);
    CountsNested(desk.signals, d, now);
    var after := RecordOnly(desk, d, kind, now);
    forall other: DeviceHash | other != d && other !in desk.blacklist
      ensures OnlineVerdict(after.signals, other, now).None?
    {
      OthersUncounted(desk.signals, d, [kind], now, other, AnySignal);
      OthersUncounted(desk.signals, d, [kind], now, other, DoubleSpends);
      OthersUncounted(desk.signals, d, [kind], now, other, IntegrityFails);
    }
  }

  lemma {:induction false} NothingCounted(d: DeviceHash, now: Instant)
    ensures forall q :: Count([], d, q, now) == 0
  {
  }

  /** Two double spends, the second recorded by hand, leave a device for the scan to find. */
  lemma {:induction false} RecordedByHandIsMissed(d: DeviceHash, now: Instant)
    ensures var desk := Checkpoint(Desk([], map[]), d, [DoubleSpendAttempt], now);
            UpToDate(desk, now) && !UpToDate(RecordOnly(desk, d, DoubleSpendAttempt, now), now)
  {
    var empty := Desk([], map[]);
    var one := Signal(d, DoubleSpendAttempt, 45, now);
    var desk := Checkpoint(empty, d, [DoubleSpendAttempt], now);
    CheckpointKeepsUpToDate(empty, d, [DoubleSpendAttempt], now);
    RecordedOne([], d, DoubleSpendAttempt, now);
    NothingCounted(d, now);
    assert [] + [one] == [one];
    hide Count, Recorded, UpToDate;
    assert desk == Desk([one], map[]);
    RecordOnlyKeepsIff(desk, d, DoubleSpendAttempt, now);
  }

  // -------------------------------------------------------------------- the services

  datatype TrustCheck = TrustCheck(integrityPassed: bool, noToken: bool, hardwareBacked: bool, trustScore: int)

  datatype Claim = Claim(replay: bool, serialMismatch: bool, signatureInvalid: bool, manipulated: bool,
          doubleSpend: bool)

  /** What checkpoint 1 records of a trust check. */
  function TrustSignals(trust: TrustCheck): seq<Kind> {
    (if trust.integrityPassed then [] else if trust.noToken then [PlayIntegrityNoToken] else [PlayIntegrityFail])
    + (if trust.hardwareBacked then [] else [HardwareKeyMissing])
    + (if trust.trustScore < 40 then [LowTrustScore] else [])
  }

  /** The one signal of a check that finds something. */
  function Only(found: bool, kind: Kind): seq<Kind> {
    if found then [kind] else []
  }

  /** What checkpoint 2 records of a claim. */
  function ClaimSignals(claim: Claim): seq<Kind> {
    Only(claim.replay, TokenReplay)
    + Only(claim.serialMismatch, SerialMismatch)
    + Only(claim.signatureInvalid, InvalidSignature)
    + Only(claim.manipulated, AmountManipulation)
    + Only(claim.doubleSpend, DoubleSpendAttempt)
  }

  lemma {:induction false} KindScoreConcat(first: seq<Kind>, rest: seq<Kind>)
    ensures KindScore(first + rest) == KindScore(first) + KindScore(rest)
  {
    if rest == [] {
      assert first + rest == first;
    } else {
      var n := |rest| - 1;
      assert (first + rest)[..|first| + n] == first + rest[..n];
      KindScoreConcat(first, rest[..n]);
    }
  }

  lemma {:induction false} OneKind(kind: Kind)
    ensures KindScore([kind]) == Score(kind)
  {
    assert [kind][..0] == [];
  }

  /** What a trust check records, each once. */
  lemma {:induction false} TrustRecords(trust: TrustCheck, kind: Kind)
    ensures kind in TrustSignals(trust) <==>
              || (kind == PlayIntegrityNoToken && !trust.integrityPassed && trust.noToken)
              || (kind == PlayIntegrityFail && !trust.integrityPassed && !trust.noToken)
              || (kind == HardwareKeyMissing && !trust.hardwareBacked)
              || (kind == LowTrustScore && trust.trustScore < 40)
    ensures |TrustSignals(trust)| ==
            (if trust.integrityPassed then 0 else 1) + (if trust.hardwareBacked then 0 else 1)
            + (if trust.trustScore < 40 then 1 else 0)
  {
  }

  lemma {:induction false} TrustScores(trust: TrustCheck)
    ensures KindScore(TrustSignals(trust)) ==
            (if trust.integrityPassed then 0 else if trust.noToken then 25 else 30)
            + (if trust.hardwareBacked then 0 else 15) + (if trust.trustScore < 40 then 10 else 0)
  {
    var integrity := if trust.integrityPassed then []
                     else if trust.noToken then [PlayIntegrityNoToken] else [PlayIntegrityFail];
    var hardware := if trust.hardwareBacked then [] else [HardwareKeyMissing];
    var score := if trust.trustScore < 40 then [LowTrustScore] else [];
    KindScoreConcat(integrity + hardware, score);
    KindScoreConcat(integrity, hardware);
    OneKind(PlayIntegrityNoToken);
    OneKind(PlayIntegrityFail);
    OneKind(HardwareKeyMissing);
    OneKind(LowTrustScore);
  }

  /** What a claim records, each once. */
  lemma {:induction false} ClaimRecords(claim: Claim, kind: Kind)
    ensures kind in ClaimSignals(claim) <==>
              || (kind == TokenReplay && claim.replay)
              || (kind == SerialMismatch && claim.serialMismatch)
              || (kind == InvalidSignature && claim.signatureInvalid)
              || (kind == AmountManipulation && claim.manipulated)
              || (kind == DoubleSpendAttempt && claim.doubleSpend)
    ensures |ClaimSignals(claim)| ==
            (if claim.replay then 1 else 0) + (if claim.serialMismatch then 1 else 0)
            + (if claim.signatureInvalid then 1 else 0) + (if claim.manipulated then 1 else 0)
            + (if claim.doubleSpend then 1 else 0)
  {
    OnlyHolds(claim.replay, TokenReplay, kind);
    OnlyHolds(claim.serialMismatch, SerialMismatch, kind);
    OnlyHolds(claim.signatureInvalid, InvalidSignature, kind);
    OnlyHolds(claim.manipulated, AmountManipulation, kind);
    OnlyHolds(claim.doubleSpend, DoubleSpendAttempt, kind);
    hide Only;
  }

  lemma {:induction false} OnlyHolds(found: bool, one: Kind, kind: Kind)
    ensures kind in Only(found, one) <==> found && kind == one
    ensures |Only(found, one)| == if found then 1 else 0
  {
  }

  lemma {:induction false} OnlyScores(found: bool, kind: Kind)
    ensures KindScore(Only(found, kind)) == if found then Score(kind) else 0
  {
    OneKind(kind);
  }

  lemma {:induction false} FiveScores(a: seq<Kind>, b: seq<Kind>, c: seq<Kind>, d: seq<Kind>, e: seq<Kind>)
    ensures KindScore(a + b + c + d + e)
            == KindScore(a) + KindScore(b) + KindScore(c) + KindScore(d) + KindScore(e)
  {
    hide KindScore;
    KindScoreConcat(a + b + c + d, e);
    KindScoreConcat(a + b + c, d);
    KindScoreConcat(a + b, c);
    KindScoreConcat(a, b);
  }

  lemma {:induction false} ClaimScores(claim: Claim)
    ensures KindScore(ClaimSignals(claim)) ==
            (if claim.replay then 50 else 0) + (if claim.serialMismatch then 35 else 0)
            + (if claim.signatureInvalid then 40 else 0) + (if claim.manipulated then 45 else 0)
            + (if claim.doubleSpend then 45 else 0)
  {
    hide KindScore, Only;
    FiveScores(Only(claim.replay, TokenReplay), Only(claim.serialMismatch, SerialMismatch),
               Only(claim.signatureInvalid, InvalidSignature), Only(claim.manipulated, AmountManipulation),
               Only(claim.doubleSpend, DoubleSpendAttempt));
    OnlyScores(claim.replay, TokenReplay);
    OnlyScores(claim.serialMismatch, SerialMismatch);
    OnlyScores(claim.signatureInvalid, InvalidSignature);
    OnlyScores(claim.manipulated, AmountManipulation);
    OnlyScores(claim.doubleSpend, DoubleSpendAttempt);
  }

  /** Whatever a trust check finds on one visit falls short of the threshold: provisioning
      is only ever blocked on top of what the device did in the past seven days. */
  lemma {:induction false} BlockingNeedsHistory(signals: seq<Signal>, d: DeviceHash, trust: TrustCheck, now: Instant)
    requires WindowScore(Recorded(signals, d, TrustSignals(trust), now), d, now) >= THRESHOLD
    ensures WindowScore(signals, d, now) >= 5 && Count(signals, d, AnySignal, now) > 0
  {
    TrustScores(trust);
    ScoreIsWindowAfter(signals, d, TrustSignals(trust), now);
    if Count(signals, d, AnySignal, now) == 0 {
      NoSignalNoScore(signals, d, now);
    }
  }

  lemma {:induction false} NoSignalNoScore(signals: seq<Signal>, d: DeviceHash, now: Instant)
    requires Count(signals, d, AnySignal, now) == 0
    ensures WindowScore(signals, d, now) == 0
  {
    if signals != [] {
      NoSignalNoScore(signals[..|signals| - 1], d, now);
    }
  }

  /** Checkpoint 1 as provisioning runs it: a blocked attempt raises, and the session that
      recorded its signals is rolled back. */
  function Admit(desk: Desk, d: DeviceHash, trust: TrustCheck, now: Instant): Desk {
    var after := Checkpoint(desk, d, TrustSignals(trust), now);
    if WindowScore(after.signals, d, now) >= THRESHOLD then desk else after
  }

  /** It is blocked, without a trace, iff what it finds and the past seven days come to 60. */
  lemma {:induction false} AdmitDoes(desk: Desk, d: DeviceHash, trust: TrustCheck, now: Instant)
    ensures Admit(desk, d, trust, now) ==
            if 60 <= KindScore(TrustSignals(trust)) + WindowScore(desk.signals, d, now) then desk
            else Checkpoint(desk, d, TrustSignals(trust), now)
  {
    ScoreIsWindowAfter(desk.signals, d, TrustSignals(trust), now);
  }

  /** One attempt to provision. */
  datatype Attempt = Attempt(device: DeviceHash, trust: TrustCheck, at: Instant)

  function Admissions(desk: Desk, attempts: seq<Attempt>): Desk {
    if attempts == [] then desk
    else
      var a := attempts[|attempts| - 1];
      Admit(Admissions(desk, attempts[..|attempts| - 1]), a.device, a.trust, a.at)
  }

  /** No device is at the threshold. */
  ghost predicate Below(desk: Desk, now: Instant) {
    forall d: DeviceHash :: WindowScore(desk.signals, d, now) < THRESHOLD
  }

  lemma {:induction false} ScoreFades(signals: seq<Signal>, d: DeviceHash, now: Instant, later: Instant)
    requires now <= later
    ensures WindowScore(signals, d, later) <= WindowScore(signals, d, now)
  {
    if signals != [] {
      ScoreFades(signals[..|signals| - 1], d, now, later);
    }
  }

  lemma {:induction false} OthersUnscored(signals: seq<Signal>, d: DeviceHash, kinds: seq<Kind>, now: Instant,
          other: DeviceHash)
    requires other != d
    ensures WindowScore(Recorded(signals, d, kinds, now), other, now) == WindowScore(signals, other, now)
  {
    if kinds != [] {
      var n := |kinds| - 1;
      OthersUnscored(signals, d, kinds[..n], now, other);
      var front := Recorded(signals, d, kinds[..n], now);
      assert Recorded(signals, d, kinds, now)[..|front|] == front;
    }
  }

  lemma {:induction false} BelowFades(desk: Desk, now: Instant, later: Instant)
    requires Below(desk, now) && now <= later
    ensures Below(desk, later)
  {
    forall d: DeviceHash ensures WindowScore(desk.signals, d, later) < THRESHOLD {
      ScoreFades(desk.signals, d, now, later);
    }
  }

  lemma {:induction false} AdmitStaysBelow(desk: Desk, d: DeviceHash, trust: TrustCheck, now: Instant)
    requires Below(desk, now)
    ensures Below(Admit(desk, d, trust, now), now)
  {
    hide TrustSignals;
    forall other: DeviceHash ensures WindowScore(Admit(desk, d, trust, now).signals, other, now) < THRESHOLD {
      if other != d {
        OthersUnscored(desk.signals, d, TrustSignals(trust), now, other);
      }
    }
  }

  ghost predicate InOrder(start: Instant, attempts: seq<Attempt>, end: Instant) {
    && start <= end
    && (forall i | 0 <= i < |attempts| :: start <= attempts[i].at <= end)
    && (forall i, j | 0 <= i < j < |attempts| :: attempts[i].at <= attempts[j].at)
  }

  /** A blocked attempt leaves no trace, so however often a device tries, provisioning alone
      never brings its score on record to the threshold. */
  lemma {:induction false} BlockedLeaveNoTrace(desk: Desk, start: Instant, attempts: seq<Attempt>, now: Instant)
    requires Below(desk, start) && InOrder(start, attempts, now)
    ensures Below(Admissions(desk, attempts), now)
  {
    if attempts == [] {
      BelowFades(desk, start, now);
    } else {
      hide Below, Admit;
      var n := |attempts| - 1;
      var a := attempts[n];
      BlockedLeaveNoTrace(desk, start, attempts[..n], a.at);
      AdmitStaysBelow(Admissions(desk, attempts[..n]), a.device, a.trust, a.at);
      BelowFades(Admissions(desk, attempts), a.at, now);
    }
  }

  class FraudService {
    var signals: seq<Signal>
    var blacklist: map<DeviceHash, Reason>

    constructor ()
      ensures View() == Desk([], map[])
    {
      signals, blacklist := [], map[];
    }

    function View(): Desk
      reads this
    {
      Desk(signals, blacklist)
    }

    method HistoricalScore(d: DeviceHash, now: Instant) returns (total: nat)
      ensures total == WindowScore(signals, d, now)
    {
      total := 0;
      for i := 0 to |signals|
        invariant total == WindowScore(signals[..i], d, now)
      {
        assert signals[..i + 1][..i] == signals[..i];
        if signals[i].device == d && signals[i].at >= now - WEEK {
          total := total + signals[i].score;
        }
      }
      assert signals[..|signals|] == signals;
    }

    method CheckAutoBlacklist(d: DeviceHash, now: Instant) returns (added: bool)
      modifies this
      ensures View() == Desk(old(signals), CheckOnline(old(signals), old(blacklist), d, now))
      ensures added <==> d !in old(blacklist) && d in blacklist
    {
      if d in blacklist {
        return false;
      }
      var all := Count(signals, d, AnySignal, now);
      var doubles := Count(signals, d, DoubleSpends, now);
      var integrity := Count(signals, d, IntegrityFails, now);
      if all >= SIGNAL_LIMIT {
        blacklist := blacklist[d := BySignals(all)];
        return true;
      } else if doubles >= 2 {
        blacklist := blacklist[d := ByDoubleSpends(doubles, false)];
        return true;
      } else if integrity >= 3 {
        blacklist := blacklist[d := ByIntegrity(integrity, false)];
        return true;
      }
      return false;
    }

    /** The common part of both checkpoints: score, record, check.  The score returned is
        the device's seven-day window sum after recording. */
    method Assess(d: DeviceHash, kinds: seq<Kind>, now: Instant) returns (total: nat)
      modifies this
      ensures View() == Checkpoint(old(View()), d, kinds, now)
      ensures total == WindowScore(signals, d, now)
    {
      total := 0;
      for i := 0 to |kinds|
        invariant total == KindScore(kinds[..i]) && View() == old(View())
      {
        assert kinds[..i + 1][..i] == kinds[..i];
        total := total + Score(kinds[i]);
      }
      assert kinds[..|kinds|] == kinds;
      var historical := HistoricalScore(d, now);
      total := total + historical;
      for i := 0 to |kinds|
        invariant signals == Recorded(old(signals), d, kinds[..i], now) && blacklist == old(blacklist)
      {
        assert kinds[..i + 1][..i] == kinds[..i];
        signals := signals + [Signal(d, kinds[i], Score(kinds[i]), now)];
      }
      ScoreIsWindowAfter(old(signals), d, kinds, now);
      var _ := CheckAutoBlacklist(d, now);
    }

    method EvaluateCheckpoint1(d: DeviceHash, trust: TrustCheck, now: Instant) returns (total: nat, blocked: bool)
      modifies this
      ensures View() == Checkpoint(old(View()), d, TrustSignals(trust), now)
      ensures total == WindowScore(signals, d, now)
      ensures blocked <==> WindowScore(signals, d, now) >= THRESHOLD
    {
      total := Assess(d, TrustSignals(trust), now);
      blocked := total >= THRESHOLD;
    }

    /** Checkpoint 1 with the rollback of a blocked attempt. */
    method ProvisioningGate(d: DeviceHash, trust: TrustCheck, now: Instant) returns (blocked: bool)
      modifies this
      ensures View() == Admit(old(View()), d, trust, now)
      ensures blocked ==> View() == old(View())
      ensures blocked <==> KindScore(TrustSignals(trust)) + WindowScore(old(signals), d, now) >= THRESHOLD
    {
      var savedSignals, savedBlacklist := signals, blacklist;
      var total;
      ScoreIsWindowAfter(signals, d, TrustSignals(trust), now);
      total, blocked := EvaluateCheckpoint1(d, trust, now);
      if blocked {
        signals, blacklist := savedSignals, savedBlacklist;
      }
    }

    method EvaluateCheckpoint2(d: DeviceHash, claim: Claim, now: Instant) returns (total: nat, flagged: bool)
      modifies this
      ensures View() == Checkpoint(old(View()), d, ClaimSignals(claim), now)
      ensures total == WindowScore(signals, d, now)
      ensures flagged <==> WindowScore(signals, d, now) >= THRESHOLD
    {
      total := Assess(d, ClaimSignals(claim), now);
      flagged := total >= THRESHOLD;
    }

    method AddIfNew(d: DeviceHash, reason: Reason) returns (added: nat)
      modifies this`blacklist
      ensures blacklist == if d in old(blacklist) then old(blacklist) else old(blacklist)[d := reason]
      ensures |blacklist.Keys| == |old(blacklist).Keys| + added
    {
      if d in blacklist {
        return 0;
      }
      blacklist := blacklist[d := reason];
      assert blacklist.Keys == old(blacklist).Keys + {d};
      return 1;
    }

    /** The insertion loop of the scan. */
    method BlacklistEach(devices: set<DeviceHash>, now: Instant) returns (blacklisted: nat)
      modifies this`blacklist
      ensures forall d :: d in blacklist <==> d in old(blacklist) || d in devices
      ensures forall d | d in blacklist ::
                blacklist[d] == if d in old(blacklist) then old(blacklist)[d] else ScanReason(signals, d, now)
      ensures |blacklist.Keys| == |old(blacklist).Keys| + blacklisted
    {
      blacklisted := 0;
      var todo := devices;
      while todo != {}
        invariant forall d :: d in todo ==> d in devices
        invariant forall d :: d in blacklist <==> d in old(blacklist) || (d in devices && d !in todo)
        invariant forall d | d in blacklist ::
                    blacklist[d] == if d in old(blacklist) then old(blacklist)[d] else ScanReason(signals, d, now)
        invariant |blacklist.Keys| == |old(blacklist).Keys| + blacklisted
        decreases todo
      {
        var d :| d in todo;
        todo := todo - {d};
        var added := AddIfNew(d, ScanReason(signals, d, now));
        blacklisted := blacklisted + added;
      }
    }

    method CollectCandidates(now: Instant) returns (devices: set<DeviceHash>)
      ensures devices == Candidates(signals, now)
    {
      devices := Group(signals, AnySignal, SIGNAL_LIMIT, now);
      devices := devices + Group(signals, DoubleSpends, DOUBLE_SPEND_LIMIT, now);
      devices := devices + Group(signals, IntegrityFails, INTEGRITY_LIMIT, now);
    }

    /** scan_for_blacklist_candidates. */
    method ScanForBlacklistCandidates(now: Instant) returns (scanned: nat, blacklisted: nat)
      modifies this
      ensures View() == Desk(old(signals), Scan(old(signals), old(blacklist), now))
      ensures scanned == |Candidates(signals, now)|
      ensures |blacklist.Keys| == |old(blacklist).Keys| + blacklisted
    {
      var devices := CollectCandidates(now);
      scanned := |devices|;
      blacklisted := BlacklistEach(devices, now);
      ScanIs(signals, old(blacklist), blacklist, now);
    }
  }
}
