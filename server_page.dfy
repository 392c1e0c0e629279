/** The provider's home page: the job list (`provider_jobs`) with its
    three-step workflow, and the notification bell over
    `provider_notifications`, including the rewrite of the old link
    `/serverpage/provider-slot`. */
module ServerPage {
  import opened Wrappers
  import opened Lists
  import opened Text
  import opened Records
  import opened Store
  import opened Notices

  const LegacyPath: string := "/serverpage/provider-slot"
  const SlotPath: string := "/provider-slot"

  /** The jobs written on the first visit. */
  const SeedJobs: seq<Job> := [
    Job("j1", "จัดแปลงนา - ไร่คุณสมศักดิ์", "อำเภอเมือง, จังหวัดลำปาง",
        "วันที่ 15 มกราคม 2025, 08:00-12:00", "฿2,500", "5 ไร่", InProgress, None),
    Job("j2", "ตัดแต่งกิ่ง - สวนลุงคำปันทอง", "อำเภอห้างฉัตร, จังหวัดลำปาง",
        "วันที่ 16 มกราคม 2025, 08:00-10:00", "฿1,800", "3 ไร่", Waiting, None),
    Job("j3", "เก็บเกี่ยวลำไย - สวนลุงสมปอง", "อำเภอสันกำแพง, จังหวัดเชียงใหม่",
        "วันที่ 18 มกราคม 2025, 07:00-11:00", "฿3,500", "6 ไร่", Waiting, None),
    Job("j4", "พ่นปุ๋ย - สวนยายทอง", "อำเภอแม่ริม, จังหวัดเชียงใหม่",
        "วันที่ 20 มกราคม 2025, 09:00-12:00", "฿2,200", "4 ไร่", Waiting, None)
  ]

  // ---------------------------------------------------------------- notifications

  /** The old link no page serves any more. */
  predicate IsLegacy(n: ProviderNoti) {
    n.link.Some? && Contains(n.link.value, LegacyPath)
  }

  /** The slot page's path does not contain the old link. */
  lemma SlotPathIsNotLegacy()
    ensures !Contains(SlotPath, LegacyPath)
  {
    ContainsLonger(SlotPath, LegacyPath);
  }

  /** Where clicking a notification leads: its link when that is not
      blank, else the slot page; any link containing the old path leads to
      the slot page instead. The result never contains the old path. */
  function Destination(link: Option<string>): (r: string)
    ensures !Contains(r, LegacyPath)
    ensures r == SlotPath || (link.Some? && r == link.value)
    ensures link.Some? && Trim(link.value) != "" && !Contains(link.value, LegacyPath) ==> r == link.value
    ensures link.None? || Trim(link.value) == "" || Contains(link.value, LegacyPath) ==> r == SlotPath
  {
    SlotPathIsNotLegacy();
    var dest := if link.Some? && Trim(link.value) != "" then link.value else SlotPath;
    if Contains(dest, LegacyPath) then SlotPath else dest
  }

  /** `onClickNoti(idx)`: out of range, nothing happens and nothing is
      opened. Otherwise exactly that notification becomes read, the list
      is saved, and its destination is returned. */
  method OnClickNoti(st: LocalStore, idx: int) returns (dest: Option<string>)
    modifies st`providerNotifications
    ensures var items := Load(old(st.providerNotifications), []);
      if 0 <= idx < |items| then
        st.providerNotifications == Present(items[idx := MarkRead(items[idx])])
        && dest == Some(Destination(items[idx].link))
      else
        st.providerNotifications == old(st.providerNotifications) && dest == None
  {
    var items := Load(st.providerNotifications, []);
    if idx < 0 || idx >= |items| {
      return None;
    }
    var copy := items[idx := items[idx].(isUnread := Some(false))];
    st.providerNotifications := Present(copy);
    dest := Some(Destination(copy[idx].link));
  }

  /** Opening a notification lowers the badge by one when it was unread and
      leads somewhere other than the old path. */
  lemma OnClickNotiEffect(items: seq<ProviderNoti>, idx: nat)
    requires idx < |items|
    ensures UnreadCount(items[idx := MarkRead(items[idx])]) == UnreadCount(items) - (if IsUnread(items[idx]) then 1 else 0)
    ensures !Contains(Destination(items[idx].link), LegacyPath)
  {
    MarkOneReadCount(items, idx);
  }

  /** The migrated form of one notification. */
  function FixLink(n: ProviderNoti): (r: ProviderNoti)
    ensures IsLegacy(n) ==> r == n.(link := Some(SlotPath))
    ensures !IsLegacy(n) ==> r == n
  {
    if IsLegacy(n) then n.(link := Some(SlotPath)) else n
  }

  /** The `map` of the migration with its `changed` flag: every
      notification migrated, and whether any held the old link. */
  method FixLinks(arr: seq<ProviderNoti>) returns (fixed: seq<ProviderNoti>, changed: bool)
    ensures fixed == Map(arr, FixLink)
    ensures changed <==> exists k :: 0 <= k < |arr| && IsLegacy(arr[k])
  {
    changed := false;
    fixed := [];
    var i := 0;
    while i < |arr|
      invariant 0 <= i <= |arr|
      invariant |fixed| == i
      invariant forall k :: 0 <= k < i ==> fixed[k] == FixLink(arr[k])
      invariant changed <==> exists k :: 0 <= k < i && IsLegacy(arr[k])
    {
      var n := arr[i];
      if IsLegacy(n) {
        changed := true;
      }
      fixed := fixed + [FixLink(n)];
      i := i + 1;
    }
  }

  /** Whether a stored list needs the migration. */
  predicate HasLegacy(raw: Stored<seq<ProviderNoti>>) {
    raw.Present? && exists k :: 0 <= k < |raw.value| && IsLegacy(raw.value[k])
  }

  /** The link migration run on mount: when the stored list has a
      notification with the old link, every such link becomes the slot
      page and the list is written back; otherwise nothing is written. */
  method MigrateLinks(st: LocalStore)
    modifies st`providerNotifications
    ensures HasLegacy(old(st.providerNotifications)) ==>
      st.providerNotifications == Present(Map(old(st.providerNotifications).value, FixLink))
    ensures !HasLegacy(old(st.providerNotifications)) ==> st.providerNotifications == old(st.providerNotifications)
  {
    if !st.providerNotifications.Present? {
      return;
    }
    var fixed, changed := FixLinks(st.providerNotifications.value);
    if changed {
      st.providerNotifications := Present(fixed);
    }
  }

  /** After the migration no notification holds the old link, and running
      it on a migrated list changes nothing. */
  lemma MigrationSettles(arr: seq<ProviderNoti>)
    ensures forall i :: 0 <= i < |arr| ==> !IsLegacy(Map(arr, FixLink)[i])
    ensures (forall i :: 0 <= i < |arr| ==> !IsLegacy(arr[i])) ==> Map(arr, FixLink) == arr
  {
    SlotPathIsNotLegacy();
  }

  // ---------------------------------------------------------------- jobs

  /** The jobs on mount: the stored ones when there are any, else the
      seed jobs, which are then saved. A non-empty stored list is never
      overwritten. */
  method LoadJobs(st: LocalStore) returns (jobs: seq<Job>)
    modifies st`providerJobs
    ensures Load(old(st.providerJobs), []) != [] ==>
      jobs == Load(old(st.providerJobs), []) && st.providerJobs == old(st.providerJobs)
    ensures Load(old(st.providerJobs), []) == [] ==> jobs == SeedJobs && st.providerJobs == Present(SeedJobs)
    ensures jobs != []
  {
    var existing := Load(st.providerJobs, []);
    if |existing| > 0 {
      return existing;
    }
    st.providerJobs := Present(SeedJobs);
    jobs := SeedJobs;
  }

  /** How far a job has come. */
  function Rank(s: JobStatus): nat {
    match s
    case Waiting => 0
    case InProgress => 1
    case Finished => 2
  }

  /** The primary button on one job: a waiting job starts, a running job
      finishes and records `now` as its finishing time, a finished job stays
      as it is. Nothing but the status and the finishing time changes. */
  function Advance(j: Job, now: int): (r: Job)
    ensures j.status == Waiting ==> r == j.(status := InProgress)
    ensures j.status == InProgress ==> r == j.(status := Finished, finishedAt := Some(now))
    ensures j.status == Finished ==> r == j
    ensures Rank(r.status) >= Rank(j.status)
  {
    match j.status
    case Waiting => j.(status := InProgress)
    case InProgress => j.(status := Finished, finishedAt := Some(now))
    case Finished => j
  }

  /** `handlePrimary(id)`: every job with that id advances one step, the
      others are untouched. */
  function HandlePrimary(jobs: seq<Job>, id: string, now: int): (r: seq<Job>)
    ensures |r| == |jobs|
    ensures forall i :: 0 <= i < |jobs| ==> jobs[i].id != id ==> r[i] == jobs[i]
    ensures forall i :: 0 <= i < |jobs| ==> jobs[i].id == id ==> r[i] == Advance(jobs[i], now)
  {
    Map(jobs, (j: Job) => if j.id != id then j else Advance(j, now))
  }

  /** One press of the primary button on a job, at a time. */
  datatype Press = Press(id: string, now: int)

  /** The jobs after a series of presses. */
  function AfterPresses(jobs: seq<Job>, presses: seq<Press>): (r: seq<Job>)
    ensures |r| == |jobs|
    decreases |presses|
  {
    if presses == [] then jobs
    else AfterPresses(HandlePrimary(jobs, presses[0].id, presses[0].now), presses[1..])
  }

  /** The workflow only goes forward: after any series of presses each job
      is where it was, keeps its id, and is at least as far along; a job
      that was finished keeps its finishing time. */
  lemma {:induction false} ForwardOnly(jobs: seq<Job>, presses: seq<Press>)
    ensures forall i :: 0 <= i < |jobs| ==>
      AfterPresses(jobs, presses)[i].id == jobs[i].id
      && Rank(AfterPresses(jobs, presses)[i].status) >= Rank(jobs[i].status)
      && (jobs[i].status == Finished ==> AfterPresses(jobs, presses)[i] == jobs[i])
    decreases |presses|
  {
    if presses != [] {
      var next := HandlePrimary(jobs, presses[0].id, presses[0].now);
      ForwardOnly(next, presses[1..]);
    }
  }

  /** Two presses finish a waiting job. */
  lemma TwoPressesFinish(jobs: seq<Job>, i: nat, t1: int, t2: int)
    requires i < |jobs| && jobs[i].status == Waiting
    ensures var r := AfterPresses(jobs, [Press(jobs[i].id, t1), Press(jobs[i].id, t2)]);
      r[i].status == Finished && r[i].finishedAt == Some(t2)
  {
    var once := HandlePrimary(jobs, jobs[i].id, t1);
    var twice := HandlePrimary(once, jobs[i].id, t2);
    assert [Press(jobs[i].id, t1), Press(jobs[i].id, t2)][1..] == [Press(jobs[i].id, t2)];
    assert AfterPresses(once, [Press(jobs[i].id, t2)]) == AfterPresses(twice, []);
  }

  predicate IsCurrent(j: Job) {
    j.status == Waiting || j.status == InProgress
  }

  predicate IsWaiting(j: Job) {
    j.status == Waiting
  }

  predicate IsFinished(j: Job) {
    j.status == Finished
  }

  /** `finishedAt || 0`. */
  function FinishedKey(j: Job): int {
    j.finishedAt.GetOr(0)
  }

  /** `currentJobs`: the waiting and running jobs, in list order. */
  function CurrentJobs(jobs: seq<Job>): (r: seq<Job>)
    ensures forall i :: 0 <= i < |r| ==> r[i].status != Finished && r[i] in jobs
    ensures forall i :: 0 <= i < |jobs| && jobs[i].status != Finished ==> jobs[i] in r
  {
    Filter(jobs, IsCurrent)
  }

  /** `waitingJobs`: the waiting jobs, in list order. */
  function WaitingJobs(jobs: seq<Job>): (r: seq<Job>)
    ensures forall i :: 0 <= i < |r| ==> r[i].status == Waiting && r[i] in jobs
    ensures forall i :: 0 <= i < |jobs| && jobs[i].status == Waiting ==> jobs[i] in r
  {
    Filter(jobs, IsWaiting)
  }

  /** `history`: exactly the finished jobs, latest finishing time first
      (a missing time counts as 0). */
  function History(jobs: seq<Job>): (r: seq<Job>)
    ensures SortedDesc(r, FinishedKey)
    ensures multiset(r) == multiset(Filter(jobs, IsFinished))
    ensures forall i :: 0 <= i < |r| ==> r[i].status == Finished
  {
    var r := SortDesc(Filter(jobs, IsFinished), FinishedKey);
    assert forall i :: 0 <= i < |r| ==> r[i] in multiset(Filter(jobs, IsFinished));
    r
  }

  /** Every job is shown exactly once: among the current jobs or in the
      history. */
  lemma {:induction false} JobsPartition(jobs: seq<Job>)
    ensures |CurrentJobs(jobs)| + |History(jobs)| == |jobs|
    decreases |jobs|
  {
    assert |History(jobs)| == |multiset(History(jobs))| == |Filter(jobs, IsFinished)|;
    if jobs != [] {
      JobsPartition(jobs[1..]);
      assert |History(jobs[1..])| == |multiset(History(jobs[1..]))| == |Filter(jobs[1..], IsFinished)|;
    }
  }
}
