/**
 Splitting the elements of collectives over channels. The planner fills channels up to an even share
 of the traffic, in whole cells: a low part on the channel in progress, whole channels in the middle
 and a high part on the channel that stays in progress. The device finds its part from five numbers.
 */
module CollSplit {
  import opened Arith
  import opened PlanLoop

  const MIN_TRAFFIC_PER_CHANNEL: nat := 16384

  /**
   A collective: what the split depends on. `trafficPerByte` includes the factor for LL; `kind` is 1 for NVLS,
   2 for CollNet and 3 for both.
   */
  datatype Task = Task(count: nat, elementSize: nat, trafficPerByte: nat, kind: nat, nMaxChannels: nat,
      trafficBytes: nat, workSize: nat) {
    predicate IsCollnet() { 2 <= kind }
  }

  predicate TaskOk(t: Task) {
    0 < t.count && t.elementSize in {1, 2, 4, 8} && 0 < t.trafficPerByte && t.kind < 4 && 0 < t.nMaxChannels
  }

  /** The split as the device gets it. */
  datatype Cbd = Cbd(channelLo: nat, channelHi: nat, countLo: nat, countMid: nat, countHi: nat)

  /** Where the planner stands: the channel in progress and the traffic it has. */
  datatype Fill = Fill(channelId: nat, traffic: nat)

  predicate FillOk(p: Fill, nMax: nat, share: nat) {
    p.channelId < nMax && (p.channelId + 1 == nMax || p.traffic < share)
  }

  function CellSize(t: Task): nat
    requires 0 < t.trafficPerByte
  {
    DivUp(DivUp(MIN_TRAFFIC_PER_CHANNEL, t.trafficPerByte), 16) * 16
  }

  /** A cell is a whole number of elements. */
  function ElementsPerCell(t: Task): (n: nat)
    requires TaskOk(t)
    ensures 0 < n && n * t.elementSize == CellSize(t)
  {
    WholeElements(DivUp(DivUp(MIN_TRAFFIC_PER_CHANNEL, t.trafficPerByte), 16), t.elementSize);
    CellSize(t) / t.elementSize
  }

  lemma WholeElements(k: nat, es: nat)
    requires 0 < k && es in {1, 2, 4, 8}
    ensures 0 < k * 16 / es && k * 16 / es * es == k * 16
  {
    var per := if es == 1 then 16 else if es == 2 then 8 else if es == 4 then 4 else 2;
    DivModUnique(k * 16, es, k * per, 0);
  }

  function Cells(t: Task): (n: nat)
    requires TaskOk(t)
    ensures 0 < n && t.count <= n * ElementsPerCell(t) < t.count + ElementsPerCell(t)
  {
    CellsHoldCount(t);
    DivUp(t.count * t.elementSize, CellSize(t))
  }

  lemma CellsHoldCount(t: Task)
    requires TaskOk(t)
    ensures 0 < t.count * t.elementSize && 0 < CellSize(t)
    ensures var n, epc := DivUp(t.count * t.elementSize, CellSize(t)), ElementsPerCell(t);
      0 < n && t.count <= n * epc < t.count + epc
  {
    MulNonneg(t.count, t.elementSize);
    MulNonneg(ElementsPerCell(t), t.elementSize);
    UnitsCancel(t.count, ElementsPerCell(t), t.elementSize, DivUp(t.count * t.elementSize, CellSize(t)));
  }

  lemma UnitsCancel(count: nat, epc: nat, es: nat, n: nat)
    requires 0 < es && 0 < epc && count * es <= epc * es * n < count * es + epc * es
    ensures count <= n * epc < count + epc
  {
    assert epc * es * n == es * (n * epc);
    MulLeInverse(es, count, n * epc);
    MulDistributes(es, count, epc);
    MulLtInverse(es, n * epc, count + epc);
  }

  function One(b: bool): nat { if b then 1 else 0 }

  /** Low, middle and high cells: nothing is lost, and the channels exist. */
  ghost predicate CellSplit(cells: nat, room: nat, lo: nat, mid: nat, per: nat, hi: nat) {
    && 0 < lo && 0 < per && lo + mid * per + hi == cells && (hi == 0 ==> mid == 0)
    && 1 + mid + One(hi != 0) <= room
  }

  lemma QuotientSplits(rest: nat, per: nat)
    requires 0 < per
    ensures 0 <= rest / per && 0 <= rest % per < per && rest / per * per + rest % per == rest
    ensures rest / per + One(rest % per != 0) <= rest
  {
    DivMod(rest, per);
    DivNonneg(rest, per);
    MulLe(rest / per, 1, per);
  }

  /** The cells of a task's parts, with the correction for too few channels. */
  method SplitCells(cells: nat, share: nat, trafficPerCell: nat, p: Fill, nMax: nat)
    returns (lo: nat, mid: nat, per: nat, hi: nat)
    requires 0 < cells && 0 < share && 0 < trafficPerCell && FillOk(p, nMax, share)
    ensures CellSplit(cells, nMax - p.channelId, lo, mid, per, hi)
    ensures p.channelId + 1 == nMax ==> lo == cells
    ensures p.channelId + 1 != nMax ==> lo == Min(cells, DivUp(share - p.traffic, trafficPerCell))
  {
    per := Min(cells, DivUp(share, trafficPerCell));
    if p.channelId + 1 == nMax {
      lo := cells;
    } else {
      lo := Min(cells, DivUp(share - p.traffic, trafficPerCell));
    }
    QuotientSplits(cells - lo, per);
    mid := (cells - lo) / per;
    hi := (cells - lo) % per;
    var nChannels := One(lo != 0) + mid + One(hi != 0);
    if nMax < p.channelId + nChannels {
      LastChannelFits(cells, lo, per, mid, hi);
      mid := nMax - p.channelId - 2;
      QuotientSplits(cells - lo, mid + 1);
      per := (cells - lo) / (mid + 1);
      hi := per + (cells - lo) % (mid + 1);
      Corrected(cells, lo, mid, per, hi);
    }
    if hi == 0 && mid != 0 {
      MulDistributes(per, mid, 1);
      hi := per;
      mid := mid - 1;
    }
  }

  lemma LastChannelFits(cells: nat, lo: nat, per: nat, mid: nat, hi: nat)
    requires lo <= cells && 0 < per && mid == (cells - lo) / per && hi == (cells - lo) % per
    ensures lo == cells ==> mid == 0 && hi == 0
  {
    if lo == cells { ModSmall(0, per); }
  }

  lemma Corrected(cells: nat, lo: nat, mid: nat, per: nat, hi: nat)
    requires lo <= cells && mid + 2 <= cells - lo
    requires per == (cells - lo) / (mid + 1) && hi == per + (cells - lo) % (mid + 1)
    ensures 0 < per && 0 < hi && lo + mid * per + hi == cells
  {
    DivAtLeast(cells - lo, mid + 1, 1);
    DivMod(cells - lo, mid + 1);
    MulDistributes(per, mid, 1);
  }

  // ---- the parts in elements ----

  /** What ncclCollCbdPart computes for a channel of the task: offset and count of its part. */
  function PartOffset(w: Cbd, channelId: nat): int
    requires w.channelLo <= channelId <= w.channelHi
  {
    if channelId == w.channelLo then 0
    else if channelId == w.channelHi then w.countLo + (w.channelHi - w.channelLo - 1) * w.countMid
    else w.countLo + (channelId - w.channelLo - 1) * w.countMid
  }

  function PartCount(w: Cbd, channelId: nat): nat
    requires w.channelLo <= channelId <= w.channelHi
  {
    if channelId == w.channelLo then w.countLo
    else if channelId == w.channelHi then w.countHi
    else w.countMid
  }

  function TotalCount(w: Cbd): int { w.countLo + w.countMid * (w.channelHi - w.channelLo - 1) + w.countHi }

  /** Every part has elements, and the parts follow each other from the first element to the last. */
  ghost predicate Tiles(w: Cbd, count: nat) {
    && w.channelLo <= w.channelHi
    && (forall c :: w.channelLo <= c <= w.channelHi ==> 0 < PartCount(w, c))
    && PartOffset(w, w.channelLo) == 0
    && (forall c :: w.channelLo <= c < w.channelHi ==> PartOffset(w, c) + PartCount(w, c) == PartOffset(w, c + 1))
    && PartOffset(w, w.channelHi) + PartCount(w, w.channelHi) == count == TotalCount(w)
  }

  /** Elements on a boundary between parts are whole cells from the start. */
  ghost predicate OnCells(w: Cbd, epc: nat)
    requires 0 < epc
  {
    w.channelLo <= w.channelHi && forall c :: w.channelLo <= c <= w.channelHi ==> PartOffset(w, c) % epc == 0
  }

  lemma PartsFollow(w: Cbd, count: nat, mid: nat)
    requires 0 < w.countLo && w.countLo + mid * w.countMid + w.countHi == count
    requires w.channelHi == w.channelLo + mid + One(w.countHi != 0)
    requires (mid != 0 <==> w.countMid != 0) && (w.countHi == 0 ==> mid == 0)
    ensures Tiles(w, count)
  {
    forall c | w.channelLo <= c < w.channelHi ensures PartOffset(w, c) + PartCount(w, c) == PartOffset(w, c + 1) {
      MulDistributes(w.countMid, c - w.channelLo - 1, 1);
      NextPart(w, c);
    }
    assert w.countMid * (w.channelHi - w.channelLo - 1) == (if w.countHi == 0 then 0 else mid * w.countMid);
  }

  lemma NextPart(w: Cbd, c: nat)
    requires w.channelLo <= c < w.channelHi
    requires (c - w.channelLo) * w.countMid == (c - w.channelLo - 1) * w.countMid + w.countMid
    ensures PartOffset(w, c) + PartCount(w, c) == PartOffset(w, c + 1)
  {
  }

  lemma CellBoundaries(w: Cbd, epc: nat, lo: nat, per: nat, mid: nat)
    requires 0 < epc && w.channelLo <= w.channelHi <= w.channelLo + mid + 1
    requires w.channelLo < w.channelHi ==> w.countLo == lo * epc
    requires w.countMid == if mid != 0 then per * epc else 0
    ensures OnCells(w, epc)
  {
    forall c | w.channelLo <= c <= w.channelHi ensures PartOffset(w, c) % epc == 0 {
      if c == w.channelLo {
        ModSmall(0, epc);
      } else {
        var k := c - w.channelLo - 1;
        var units := if mid != 0 then per else 0;
        assert k * (units * epc) == epc * (k * units);
        MulDistributes(epc, lo, k * units);
        DivModUnique(PartOffset(w, c), epc, lo + k * units, 0);
      }
    }
  }

  /** Cells to elements; the last part gives up what the last cell lacks. */
  method CountElements(task: Task, lo: nat, mid: nat, per: nat, hi: nat, channelId: nat, ghost room: nat)
    returns (w: Cbd)
    requires TaskOk(task) && CellSplit(Cells(task), room, lo, mid, per, hi)
    ensures w.channelLo == channelId && w.channelHi == channelId + mid + One(hi != 0) < channelId + room
    ensures (w.countHi != 0 <==> hi != 0) && Tiles(w, task.count) && OnCells(w, ElementsPerCell(task))
  {
    var epc, cells := ElementsPerCell(task), Cells(task);
    var countMid := if mid != 0 then per * epc else 0;
    var countLo, countHi := lo * epc, hi * epc;
    var over := cells * epc - task.count;
    Distribute(epc, lo, mid, per, hi);
    MulLe(epc, 1, lo);
    if hi != 0 { MulLe(epc, 1, hi); }
    if countHi != 0 { countHi := countHi - over; } else { countLo := countLo - over; }
    MulNonneg(per, epc);
    w := Cbd(channelId, channelId + mid + One(hi != 0), countLo, countMid, countHi);
    PartsFollow(w, task.count, mid);
    CellBoundaries(w, epc, lo, per, mid);
  }

  lemma Distribute(epc: nat, lo: nat, mid: nat, per: nat, hi: nat)
    ensures (lo + mid * per + hi) * epc == lo * epc + mid * (per * epc) + hi * epc
    ensures mid == 0 ==> (lo + mid * per + hi) * epc == lo * epc + hi * epc
  {
    MulDistributes(epc, lo + mid * per, hi);
    MulDistributes(epc, lo, mid * per);
    assert mid * per * epc == mid * (per * epc);
  }

  // ---- task after task ----

  /** One task: its split and where the planner stands after it. */
  method SplitTask(task: Task, share: nat, p: Fill, nMax: nat) returns (w: Cbd, p': Fill)
    requires TaskOk(task) && 0 < share && FillOk(p, nMax, share)
    ensures Tiles(w, task.count) && OnCells(w, ElementsPerCell(task))
    ensures w.channelLo == p.channelId && w.channelHi < nMax
    ensures FillOk(p', nMax, share) && w.channelHi <= p'.channelId <= w.channelHi + 1
  {
    var cells, epc := Cells(task), ElementsPerCell(task);
    MulNonneg(CellSize(task), task.trafficPerByte);
    MulNonneg(epc, task.elementSize);
    var lo, mid, per, hi := SplitCells(cells, share, CellSize(task) * task.trafficPerByte, p, nMax);
    w := CountElements(task, lo, mid, per, hi, p.channelId, nMax - p.channelId);
    var trafficPerElement := task.elementSize * task.trafficPerByte;
    if w.countHi != 0 {
      p' := Fill(w.channelHi, Traffic(hi, epc, trafficPerElement));
    } else if mid != 0 {
      assert false;
    } else {
      p' := p.(traffic := p.traffic + Traffic(lo, epc, trafficPerElement));
    }
    if share <= p'.traffic && p'.channelId + 1 != nMax {
      p' := Fill(p'.channelId + 1, 0);
    }
  }

  function Traffic(cells: nat, epc: nat, trafficPerElement: nat): nat {
    MulNonneg(cells, epc);
    MulNonneg(cells * epc, trafficPerElement);
    cells * epc * trafficPerElement
  }

  /** Tasks of kinds that have channels. */
  ghost predicate TasksOk(tasks: seq<Task>, nMax: seq<nat>) {
    |nMax| == 4 && (forall i :: 0 <= i < |tasks| ==> TaskOk(tasks[i])) && forall i :: 0 <= i < |tasks| ==>
      HasChannels(tasks[i], nMax)
  }

  ghost predicate HasChannels(task: Task, nMax: seq<nat>) { task.kind < |nMax| && 0 < nMax[task.kind] }

  // ---- the estimate ----

  ghost function Sizes(tasks: seq<Task>): nat {
    if tasks == [] then 0 else Sizes(tasks[..|tasks| - 1]) + tasks[|tasks| - 1].workSize
  }

  /** The traffic of the tasks of a kind, each counted with the minimum at least. */
  ghost function KindTraffic(tasks: seq<Task>, k: nat): nat {
    if tasks == [] then 0 else
    var t := tasks[|tasks| - 1];
    KindTraffic(tasks[..|tasks| - 1], k) + if t.kind == k then Max(MIN_TRAFFIC_PER_CHANNEL, t.trafficBytes) else 0
  }

  /** The channels that the tasks of a kind could use. */
  ghost function KindChannels(tasks: seq<Task>, k: nat): nat {
    if tasks == [] then 0 else
    var t := tasks[|tasks| - 1];
    KindChannels(tasks[..|tasks| - 1], k) + if t.kind == k then t.nMaxChannels else 0
  }

  /** The first tasks up to task `j` fit, at a guess of four to a batch. */
  ghost predicate GuessFits(tasks: seq<Task>, b: Budget, j: nat)
    requires j < |tasks|
  {
    Fits(b, DivUp(j, 4), Sizes(tasks[..j + 1]))
  }

  /** `n` tasks are taken, and one more would be too many. */
  ghost predicate IsEstimate(tasks: seq<Task>, b: Budget, n: nat) {
    n <= |tasks| && (forall j :: 0 <= j < n ==> GuessFits(tasks, b, j)) && (n < |tasks| ==> !GuessFits(tasks, b, n))
  }

  lemma {:induction false} KindIsCounted(tasks: seq<Task>, j: nat)
    requires j < |tasks| && forall i :: 0 <= i < |tasks| ==> TaskOk(tasks[i])
    ensures 1 <= KindChannels(tasks, tasks[j].kind) && MIN_TRAFFIC_PER_CHANNEL <= KindTraffic(tasks, tasks[j].kind)
  {
    if j < |tasks| - 1 { KindIsCounted(tasks[..|tasks| - 1], j); }
  }

  /** What the estimate knows of each kind. Capping after every task is capping once. */
  ghost predicate KindsCounted(tasks: seq<Task>, nMax: seq<nat>, trafficBytes: seq<nat>, nChannels: seq<nat>) {
    && |nMax| == |trafficBytes| == |nChannels| == 4
    && forall k :: 0 <= k < 4 ==>
      trafficBytes[k] == KindTraffic(tasks, k) && nChannels[k] == Min(nMax[k], KindChannels(tasks, k))
  }

  lemma CountOneMore(tasks: seq<Task>, nMax: seq<nat>, trafficBytes: seq<nat>, nChannels: seq<nat>, t: Task)
    requires KindsCounted(tasks, nMax, trafficBytes, nChannels) && t.kind < 4
    ensures KindsCounted(tasks + [t], nMax,
      trafficBytes[t.kind := trafficBytes[t.kind] + Max(MIN_TRAFFIC_PER_CHANNEL, t.trafficBytes)],
      nChannels[t.kind := Min(nChannels[t.kind] + t.nMaxChannels, nMax[t.kind])])
  {
    assert (tasks + [t])[..|tasks|] == tasks;
  }

  ghost predicate Estimating(tasks: seq<Task>, b: Budget, nMax: seq<nat>, n: nat, workBytes: nat,
      trafficBytes: seq<nat>, nChannels: seq<nat>) {
    && n <= |tasks| && workBytes == Sizes(tasks[..n]) && (forall j :: 0 <= j < n ==> GuessFits(tasks, b, j))
    && KindsCounted(tasks[..n], nMax, trafficBytes, nChannels)
  }

  lemma EstimateNext(tasks: seq<Task>, b: Budget, nMax: seq<nat>, n: nat, workBytes: nat, trafficBytes: seq<nat>,
      nChannels: seq<nat>)
    requires Estimating(tasks, b, nMax, n, workBytes, trafficBytes, nChannels) && n < |tasks| && tasks[n].kind < 4
    ensures GuessFits(tasks, b, n) <==> Fits(b, DivUp(n, 4), workBytes + tasks[n].workSize)
    ensures var t := tasks[n]; GuessFits(tasks, b, n) ==>
      Estimating(tasks, b, nMax, n + 1, workBytes + t.workSize,
        trafficBytes[t.kind := trafficBytes[t.kind] + Max(MIN_TRAFFIC_PER_CHANNEL, t.trafficBytes)],
        nChannels[t.kind := Min(nChannels[t.kind] + t.nMaxChannels, nMax[t.kind])])
  {
    SizesNext(tasks, n);
    CountOneMore(tasks[..n], nMax, trafficBytes, nChannels, tasks[n]);
  }

  lemma KindsInUse(tasks: seq<Task>, n: nat, nMax: seq<nat>, trafficBytes: seq<nat>, nChannels: seq<nat>)
    requires TasksOk(tasks, nMax) && n <= |tasks| && KindsCounted(tasks[..n], nMax, trafficBytes, nChannels)
    ensures forall j :: 0 <= j < n ==>
      tasks[j].kind < 4 && 1 <= nChannels[tasks[j].kind] && MIN_TRAFFIC_PER_CHANNEL <= trafficBytes[tasks[j].kind]
  {
    forall j | 0 <= j < n
      ensures tasks[j].kind < 4 && 1 <= nChannels[tasks[j].kind]
      ensures MIN_TRAFFIC_PER_CHANNEL <= trafficBytes[tasks[j].kind]
    {
      KindIsCounted(tasks[..n], j);
      assert HasChannels(tasks[j], nMax);
    }
  }

  /** The first loop of scheduleCollTasksToPlan. */
  method EstimateColls(tasks: seq<Task>, b: Budget, nMax: seq<nat>)
    returns (nPlanColls: nat, trafficBytes: seq<nat>, nChannels: seq<nat>)
    requires TasksOk(tasks, nMax)
    ensures IsEstimate(tasks, b, nPlanColls) && KindsCounted(tasks[..nPlanColls], nMax, trafficBytes, nChannels)
    ensures forall j :: 0 <= j < nPlanColls ==>
      tasks[j].kind < 4 && 1 <= nChannels[tasks[j].kind] && MIN_TRAFFIC_PER_CHANNEL <= trafficBytes[tasks[j].kind]
  {
    nPlanColls, trafficBytes, nChannels := 0, [0, 0, 0, 0], [0, 0, 0, 0];
    var workBytes: nat := 0;
    while nPlanColls < |tasks|
      invariant Estimating(tasks, b, nMax, nPlanColls, workBytes, trafficBytes, nChannels)
    {
      var task := tasks[nPlanColls];
      EstimateNext(tasks, b, nMax, nPlanColls, workBytes, trafficBytes, nChannels);
      if !Fits(b, DivUp(nPlanColls, 4), workBytes + task.workSize) { break; }
      nPlanColls, workBytes := nPlanColls + 1, workBytes + task.workSize;
      var traffic := trafficBytes[task.kind] + Max(MIN_TRAFFIC_PER_CHANNEL, task.trafficBytes);
      trafficBytes := trafficBytes[task.kind := traffic];
      nChannels := nChannels[task.kind := Min(nChannels[task.kind] + task.nMaxChannels, nMax[task.kind])];
    }
    KindsInUse(tasks, nPlanColls, nMax, trafficBytes, nChannels);
  }

  lemma SizesNext(tasks: seq<Task>, n: nat)
    requires n < |tasks|
    ensures tasks[..n + 1] == tasks[..n] + [tasks[n]] && Sizes(tasks[..n + 1]) == Sizes(tasks[..n]) + tasks[n].workSize
  {
    assert tasks[..n + 1][..n] == tasks[..n];
  }

  // ---- the loop ----

  /** Where a task runs: split into cells, or, with CollNet, as a whole on the first channels. */
  datatype Place = ByCells(w: Cbd) | Whole(nChannels: nat)

  function NChannels(x: Place): int {
    match x
    case ByCells(w) => w.channelHi + 1 - w.channelLo
    case Whole(n) => n
  }

  /** Tasks of one kind take up channels without leaving one out; a new kind starts at channel 0. */
  ghost predicate Consecutive(tasks: seq<Task>, places: seq<Place>, i: nat)
    requires i < |places| <= |tasks|
  {
    places[i].ByCells? ==>
      if i == 0 || tasks[i].kind != tasks[i - 1].kind then places[i].w.channelLo == 0
      else places[i - 1].ByCells? && places[i - 1].w.channelHi <= places[i].w.channelLo <= places[i - 1].w.channelHi + 1
  }

  lemma ConsecutiveKept(tasks: seq<Task>, places: seq<Place>, x: Place)
    requires |places| < |tasks| && forall k :: 0 <= k < |places| ==> Consecutive(tasks, places, k)
    ensures forall k :: 0 <= k < |places| ==> Consecutive(tasks, places + [x], k)
  {
    forall k | 0 <= k < |places| ensures Consecutive(tasks, places + [x], k) { assert Consecutive(tasks, places, k); }
  }

  /** The split covers the task in whole cells, on channels that exist; a CollNet task is not split. */
  ghost predicate SplitOk(task: Task, x: Place, nMax: seq<nat>) {
    && TaskOk(task) && task.kind < |nMax|
    && if task.IsCollnet() then x == Whole(task.nMaxChannels) else
      && x.ByCells? && Tiles(x.w, task.count) && OnCells(x.w, ElementsPerCell(task))
      && x.w.channelHi < nMax[task.kind]
  }

  /** The most channels a task may use. */
  function Widest(task: Task, nMax: seq<nat>): nat
    requires task.kind < |nMax|
  {
    if task.IsCollnet() then task.nMaxChannels else nMax[task.kind]
  }

  /** The even share of a kind's traffic. No kind in use has zero channels. */
  function Share(trafficBytes: nat, nChannels: nat): (share: nat)
    requires 0 < nChannels
    ensures MIN_TRAFFIC_PER_CHANNEL <= share
  {
    Max(MIN_TRAFFIC_PER_CHANNEL, trafficBytes / nChannels)
  }

  /** The places found so far. */
  ghost predicate Placed(tasks: seq<Task>, places: seq<Place>, nMax: seq<nat>) {
    && |places| <= |tasks| && (forall k :: 0 <= k < |places| ==> SplitOk(tasks[k], places[k], nMax))
    && forall k :: 0 <= k < |places| ==> Consecutive(tasks, places, k)
  }

  /** The planner stands where the last task of its kind left it, or at the start of a new kind. */
  ghost predicate Standing(tasks: seq<Task>, places: seq<Place>, kind: int, share: nat, p: Fill, nMax: seq<nat>) {
    && 0 <= kind < |nMax| && |places| <= |tasks| && MIN_TRAFFIC_PER_CHANNEL <= share && FillOk(p, nMax[kind], share)
    && if places == [] || tasks[|places| - 1].kind != kind then p == Fill(0, 0) else
      var x := places[|places| - 1];
      x.ByCells? ==> x.w.channelHi <= p.channelId <= x.w.channelHi + 1
  }

  lemma NextIsConsecutive(tasks: seq<Task>, places: seq<Place>, x: Place, share: nat, p: Fill, nMax: seq<nat>)
    requires |places| < |tasks| && Placed(tasks, places, nMax) && SplitOk(tasks[|places|], x, nMax)
    requires Standing(tasks, places, tasks[|places|].kind, share, p, nMax)
    requires (x.ByCells? ==> x.w.channelLo == p.channelId)
    ensures Consecutive(tasks, places + [x], |places|)
  {
    if places != [] { assert SplitOk(tasks[|places| - 1], places[|places| - 1], nMax); }
  }

  lemma SplitsKept(tasks: seq<Task>, places: seq<Place>, x: Place, nMax: seq<nat>)
    requires |places| < |tasks| && SplitOk(tasks[|places|], x, nMax)
    requires forall k :: 0 <= k < |places| ==> SplitOk(tasks[k], places[k], nMax)
    ensures forall k :: 0 <= k < |places + [x]| ==> SplitOk(tasks[k], (places + [x])[k], nMax)
  {
  }

  lemma PlaceFollows(tasks: seq<Task>, places: seq<Place>, x: Place, share: nat, p: Fill, nMax: seq<nat>)
    requires |places| < |tasks| && Placed(tasks, places, nMax) && SplitOk(tasks[|places|], x, nMax)
    requires Standing(tasks, places, tasks[|places|].kind, share, p, nMax)
    requires (x.ByCells? ==> x.w.channelLo == p.channelId)
    ensures Placed(tasks, places + [x], nMax)
  {
    ConsecutiveKept(tasks, places, x);
    NextIsConsecutive(tasks, places, x, share, p, nMax);
    SplitsKept(tasks, places, x, nMax);
  }

  /** One task finds its place. */
  method PlaceTask(ghost tasks: seq<Task>, ghost places: seq<Place>, task: Task, share: nat, p: Fill, nMax: seq<nat>)
    returns (x: Place, p': Fill)
    requires |places| < |tasks| && task == tasks[|places|] && TaskOk(task) && Placed(tasks, places, nMax)
    requires Standing(tasks, places, task.kind, share, p, nMax)
    ensures Placed(tasks, places + [x], nMax) && Standing(tasks, places + [x], task.kind, share, p', nMax)
    ensures 1 <= NChannels(x) <= Widest(task, nMax)
  {
    if task.IsCollnet() {
      x, p' := Whole(task.nMaxChannels), p;
    } else {
      var w;
      w, p' := SplitTask(task, share, p, nMax[task.kind]);
      x := ByCells(w);
    }
    PlaceFollows(tasks, places, x, share, p, nMax);
  }

  ghost predicate BetweenTasks(tasks: seq<Task>, places: seq<Place>, kindPrev: int, share: nat, p: Fill,
      nMax: seq<nat>) {
    && Placed(tasks, places, nMax)
    && if places == [] then kindPrev == -1
      else kindPrev == tasks[|places| - 1].kind && Standing(tasks, places, kindPrev, share, p, nMax)
  }

  /** The next task: a new kind starts over with its own share. */
  method PlaceNext(tasks: seq<Task>, ghost places: seq<Place>, i: nat, kindPrev: int, share: nat, p: Fill,
      trafficBytes: seq<nat>, nChannels: seq<nat>, nMax: seq<nat>)
    returns (x: Place, share': nat, p': Fill)
    requires TasksOk(tasks, nMax) && i == |places| < |tasks| && BetweenTasks(tasks, places, kindPrev, share, p, nMax)
    requires |trafficBytes| == |nChannels| == 4 && tasks[i].kind < 4 && 1 <= nChannels[tasks[i].kind]
    ensures BetweenTasks(tasks, places + [x], tasks[i].kind, share', p', nMax)
    ensures 1 <= NChannels(x) <= Widest(tasks[i], nMax)
  {
    var kind := tasks[i].kind;
    share', p' := share, p;
    if kind != kindPrev {
      assert HasChannels(tasks[i], nMax);
      share', p' := Share(trafficBytes[kind], nChannels[kind]), Fill(0, 0);
    }
    x, p' := PlaceTask(tasks, places, tasks[i], share', p', nMax);
  }

  /** A plan of the first tasks within the budget. */
  ghost predicate PlanSize(tasks: seq<Task>, n: nat, b: Budget, nBatches: nat, workBytes: nat)
    requires n <= |tasks|
  {
    && workBytes == Sizes(tasks[..n])
    && if n == 0 then nBatches == 0 else Fits(b, nBatches, workBytes) && Fits(b, 1, tasks[0].workSize)
  }

  lemma PlanGrows(tasks: seq<Task>, n: nat, b: Budget, nBatches: nat, workBytes: nat, nChannels: nat, added: nat)
    requires n < |tasks| && PlanSize(tasks, n, b, nBatches, workBytes) && added <= nChannels && 0 < nChannels
    requires Fits(b, nBatches + nChannels, workBytes + tasks[n].workSize)
    ensures PlanSize(tasks, n + 1, b, nBatches + added, workBytes + tasks[n].workSize)
  {
    SizesNext(tasks, n);
    FitsLess(b, nBatches + nChannels, workBytes + tasks[n].workSize, nBatches + added, workBytes + tasks[n].workSize);
    FitsLess(b, nBatches + nChannels, workBytes + tasks[n].workSize, 1, tasks[n].workSize);
  }

  lemma TooWide(b: Budget, nBatches: nat, workBytes: nat, nChannels: nat, widest: nat)
    requires !Fits(b, nBatches + nChannels, workBytes) && nChannels <= widest
    ensures !Fits(b, nBatches + widest, workBytes)
  {
  }

  /**
   scheduleCollTasksToPlan: how many channels to count on, then task by task until the estimate or the budget is used
   up.
   */
  method ScheduleColls(tasks: seq<Task>, b: Budget, nMax: seq<nat>)
    returns (nPlanColls: nat, places: seq<Place>, nBatches: nat, workBytes: nat)
    requires TasksOk(tasks, nMax)
    ensures IsEstimate(tasks, b, nPlanColls) && |places| <= nPlanColls && Placed(tasks, places, nMax)
    ensures PlanSize(tasks, |places|, b, nBatches, workBytes)
    ensures |places| < nPlanColls ==>
      tasks[|places|].kind < |nMax|
      && !Fits(b, nBatches + Widest(tasks[|places|], nMax), workBytes + tasks[|places|].workSize)
  {
    var trafficBytes, nChannels;
    nPlanColls, trafficBytes, nChannels := EstimateColls(tasks, b, nMax);
    places, nBatches, workBytes := [], 0, 0;
    var kindPrev: int, share: nat, p := -1, 0, Fill(0, 0);
    while |places| < nPlanColls
      invariant |places| <= nPlanColls && BetweenTasks(tasks, places, kindPrev, share, p, nMax)
      invariant PlanSize(tasks, |places|, b, nBatches, workBytes)
      decreases nPlanColls - |places|
    {
      var i := |places|;
      var x;
      x, share, p := PlaceNext(tasks, places, i, kindPrev, share, p, trafficBytes, nChannels, nMax);
      var n: nat := NChannels(x);
      if !Fits(b, nBatches + n, workBytes + tasks[i].workSize) {
        TooWide(b, nBatches, workBytes + tasks[i].workSize, n, Widest(tasks[i], nMax));
        return;
      }
      var added: nat :| added <= n;
      PlanGrows(tasks, i, b, nBatches, workBytes, n, added);
      kindPrev, places, nBatches, workBytes := tasks[i].kind, places + [x], nBatches + added, workBytes
      + tasks[i].workSize;
    }
  }

  // ---- the planner's step ----

  /** A queue of the planning loop, which sees only the sizes of the tasks. */
  ghost predicate QueueOf(tasks: seq<Task>, queue: seq<CollTask>) {
    |queue| == |tasks| && forall i :: 0 <= i < |queue| ==> queue[i].workSize == tasks[i].workSize
  }

  lemma {:induction false} SizesGrow(tasks: seq<Task>)
    requires tasks != [] && forall i :: 0 <= i < |tasks| ==> 0 < tasks[i].workSize
    ensures 0 < Sizes(tasks)
  {
  }

  lemma SizedPlanIsOk(tasks: seq<Task>, queue: seq<CollTask>, n: nat, b: Budget, nBatches: nat, workBytes: nat)
    requires QueueOf(tasks, queue) && n <= |tasks| && PlanSize(tasks, n, b, nBatches, workBytes)
    requires forall i :: 0 <= i < |tasks| ==> 0 < tasks[i].workSize
    ensures CollPlanOk(b, Plan(nBatches, workBytes, queue[..n], []))
  {
    if n != 0 { SizesGrow(tasks[..n]); }
  }

  /** A first task that fits with all its channels is in the estimate and in the plan. */
  lemma FirstIsTaken(tasks: seq<Task>, b: Budget, nMax: seq<nat>, widest: nat, nPlanColls: nat, n: nat)
    requires tasks != [] && tasks[0].kind < |nMax| && Widest(tasks[0], nMax) <= widest
    requires Fits(b, widest, tasks[0].workSize)
    requires IsEstimate(tasks, b, nPlanColls) && n <= nPlanColls
    requires n == 0 < nPlanColls ==> !Fits(b, Widest(tasks[0], nMax), tasks[0].workSize)
    ensures 0 < n
  {
    FitsLess(b, widest, tasks[0].workSize, Widest(tasks[0], nMax), tasks[0].workSize);
    FitsLess(b, widest, tasks[0].workSize, 0, tasks[0].workSize);
    SizesNext(tasks, 0);
    assert GuessFits(tasks, b, 0);
  }

  /**
   The step that `Planner.ScheduleColls` leaves open, filled in: the tasks are split as above, and the plan and
   the queue are as that method promises the planning loop, for any bound on the channels of a task.
   */
  method ScheduleQueue(planner: Planner, tasks: seq<Task>, b: Budget, nMax: seq<nat>, ghost widest: nat)
    returns (plan: Plan, places: seq<Place>)
    requires TasksOk(tasks, nMax) && QueueOf(tasks, planner.collQueue)
    requires forall i :: 0 <= i < |tasks| ==> 0 < tasks[i].workSize && Widest(tasks[i], nMax) <= widest
    modifies planner`collQueue
    ensures plan.colls + planner.collQueue == old(planner.collQueue) && plan.p2ps == []
    ensures CollPlanOk(b, plan)
    ensures old(planner.collQueue) != [] && Fits(b, widest, old(planner.collQueue)[0].workSize) ==>
      plan != EMPTY && |planner.collQueue| < |old(planner.collQueue)|
    ensures |places| == |plan.colls| && Placed(tasks, places, nMax)
  {
    var nPlanColls, nBatches, workBytes;
    nPlanColls, places, nBatches, workBytes := ScheduleColls(tasks, b, nMax);
    plan := Plan(nBatches, workBytes, planner.collQueue[..|places|], []);
    SizedPlanIsOk(tasks, planner.collQueue, |places|, b, nBatches, workBytes);
    if tasks != [] && Fits(b, widest, tasks[0].workSize) { FirstIsTaken(tasks, b, nMax, widest, nPlanColls, |places|); }
    planner.collQueue := planner.collQueue[|places|..];
  }

  /** The proxies are told the same parts, in bytes. */
  method ProxyParts(w: Cbd, elementSize: nat, ghost count: nat) returns (offsets: seq<nat>, sizes: seq<nat>)
    requires Tiles(w, count)
    ensures |offsets| == |sizes| == w.channelHi + 1 - w.channelLo
    ensures forall c :: w.channelLo <= c <= w.channelHi ==>
      offsets[c - w.channelLo] == PartOffset(w, c) * elementSize
      && sizes[c - w.channelLo] == PartCount(w, c) * elementSize
  {
    offsets, sizes := [], [];
    var nMid := w.channelHi - w.channelLo - 1;
    for c := w.channelLo to w.channelHi + 1
      invariant |offsets| == |sizes| == c - w.channelLo
      invariant forall d :: w.channelLo <= d < c ==>
        offsets[d - w.channelLo] == PartOffset(w, d) * elementSize
        && sizes[d - w.channelLo] == PartCount(w, d) * elementSize
    {
      OffsetNonneg(w, c);
      MulNonneg(PartOffset(w, c), elementSize);
      MulNonneg(PartCount(w, c), elementSize);
      if c == w.channelLo {
        offsets, sizes := offsets + [0], sizes + [w.countLo * elementSize];
      } else if c == w.channelHi {
        offsets, sizes := offsets + [(w.countLo + nMid * w.countMid) * elementSize], sizes + [w.countHi * elementSize];
      } else {
        offsets, sizes := offsets + [(w.countLo + (c - w.channelLo - 1) * w.countMid) * elementSize], sizes
        + [w.countMid * elementSize];
      }
    }
  }

  lemma OffsetNonneg(w: Cbd, c: nat)
    requires w.channelLo <= c <= w.channelHi
    ensures 0 <= PartOffset(w, c)
  {
    if w.channelLo < c { MulNonneg(c - w.channelLo - 1, w.countMid); }
  }

  /** Every element belongs to the part of exactly one channel. */
  lemma {:induction false} ElementHasChannel(w: Cbd, count: nat, x: nat, c: nat) returns (owner: nat)
    requires Tiles(w, count) && w.channelLo <= c <= w.channelHi && PartOffset(w, c) <= x < count
    ensures c <= owner <= w.channelHi && PartOffset(w, owner) <= x < PartOffset(w, owner) + PartCount(w, owner)
    decreases w.channelHi - c
  {
    owner := c;
    if PartOffset(w, c) + PartCount(w, c) <= x { owner := ElementHasChannel(w, count, x, c + 1); }
  }

  lemma {:induction false} LaterPartsAreHigher(w: Cbd, count: nat, c: nat, d: nat)
    requires Tiles(w, count) && w.channelLo <= c < d <= w.channelHi
    ensures PartOffset(w, c) + PartCount(w, c) <= PartOffset(w, d)
  {
    if c + 1 < d {
      LaterPartsAreHigher(w, count, c, d - 1);
      assert PartOffset(w, d - 1) + PartCount(w, d - 1) == PartOffset(w, d - 1 + 1);
    }
  }

  lemma ElementHasOneChannel(w: Cbd, count: nat, x: nat, c: nat, d: nat)
    requires Tiles(w, count) && w.channelLo <= c <= w.channelHi && w.channelLo <= d <= w.channelHi
    requires PartOffset(w, c) <= x < PartOffset(w, c) + PartCount(w, c)
    requires PartOffset(w, d) <= x < PartOffset(w, d) + PartCount(w, d)
    ensures c == d
  {
    if c < d { LaterPartsAreHigher(w, count, c, d); }
    if d < c { LaterPartsAreHigher(w, count, d, c); }
  }
}
