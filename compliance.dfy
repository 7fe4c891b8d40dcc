/** The compliance page (components/CompliancePage.tsx): which filings a
    business profile makes applicable, and the two ways a task becomes
    Completed (a payment, and the simulated portal sync). */
module Compliance {
  import opened Wrappers
  import opened Domain
  import opened Sorting

  /** The seven entries of the page's compliance catalogue. */
  datatype Filing = Itr | Tds | Gst | RocAoc4 | RocMgt7 | Pf | Esi

  /** The order in which the page pushes the filings. */
  function Rank(f: Filing): nat {
    match f
    case Itr => 0
    case Tds => 1
    case Gst => 2
    case RocAoc4 => 3
    case RocMgt7 => 4
    case Pf => 5
    case Esi => 6
  }

  function AllFilings(): seq<Filing> {
    [Itr, Tds, Gst, RocAoc4, RocMgt7, Pf, Esi]
  }

  /** The status each filing is given when the list is generated. */
  function InitialStatus(f: Filing): ComplianceStatus {
    match f
    case Gst => ComplianceStatus.Overdue
    case Pf => ComplianceStatus.Completed
    case _ => ComplianceStatus.Pending
  }

  /** A catalogue entry with the status it is generated with, assembled
      from one function per field. (Long texts are written as
      concatenations of short literals, which the verifier handles far more
      cheaply than one long literal.) */
  function Task(f: Filing): ComplianceTask {
    ComplianceTask(TaskId(f), Title(f), Description(f), DueDate(f), Amount(f), InitialStatus(f), PriorityOf(f))
  }

  function Title(f: Filing): string {
    match f
    case Gst => "GST Return Filing - GSTR-3B"
    case Tds => "TDS Return Filing - Q4 FY23-24"
    case Itr => "Income Tax Return Filing"
    case RocAoc4 => "ROC Annual Filing - Form AOC-4"
    case RocMgt7 => "ROC Annual Filing - Form MGT-7"
    case Pf => "Provident Fund (PF) Return"
    case Esi => "ESI Return Filing"
  }

  function Description(f: Filing): string {
    match f
    case Gst =>
      "GSTR-3B is a monthly "
      + "self-declaration to be "
      + "filed by a registered "
      + "dealer. It contains a "
      + "summary of supplies made, "
      + "input tax credit claimed, "
      + "and net tax payable."
    case Tds =>
      "Filing of Tax Deducted at "
      + "Source (TDS) returns for "
      + "the final quarter of the "
      + "financial year. This is "
      + "mandatory for all "
      + "businesses that have "
      + "deducted tax at source."
    case Itr =>
      "Annual filing of income "
      + "tax returns to the "
      + "government, declaring "
      + "income, expenses, and tax "
      + "liability."
    case RocAoc4 =>
      "Filing of annual "
      + "financial statements with "
      + "the Registrar of "
      + "Companies (ROC). It "
      + "provides a view of the "
      + "company's financial "
      + "health."
    case RocMgt7 =>
      "Filing of the annual "
      + "return with the Registrar "
      + "of Companies (ROC), "
      + "containing details of the "
      + "company's shareholders, "
      + "directors, etc."
    case Pf =>
      "Monthly filing of PF "
      + "returns, detailing "
      + "employee and employer "
      + "contributions towards the "
      + "provident fund."
    case Esi =>
      "Filing of returns for the "
      + "Employees' State "
      + "Insurance (ESI) scheme, "
      + "which provides medical "
      + "and cash benefits to "
      + "employees."
  }

  function DueDate(f: Filing): string {
    match f
    case Gst => "2024-04-20"
    case Tds => "2024-05-31"
    case Itr => "2024-07-31"
    case RocAoc4 => "2024-06-29"
    case RocMgt7 => "2024-07-15"
    case Pf => "2024-04-15"
    case Esi => "2024-05-11"
  }

  function Amount(f: Filing): real {
    match f
    case Gst => 550.0
    case Tds => 1200.0
    case Itr => 3500.0
    case RocAoc4 => 2500.0
    case RocMgt7 => 2000.0
    case Pf => 800.0
    case Esi => 600.0
  }

  function PriorityOf(f: Filing): Priority {
    match f
    case Gst => High
    case Tds => High
    case Itr => High
    case RocAoc4 => Medium
    case RocMgt7 => Medium
    case Pf => Medium
    case Esi => Low
  }

  /** The id of each catalogue entry. */
  function TaskId(f: Filing): string {
    match f
    case Gst => "gst-1"
    case Tds => "tds-1"
    case Itr => "itr-1"
    case RocAoc4 => "roc-1"
    case RocMgt7 => "roc-2"
    case Pf => "pf-1"
    case Esi => "esi-1"
  }

  /** Reads back the filing from the characters that tell the ids apart. */
  function FilingOfId(id: string): Option<Filing> {
    if |id| < 5 && id != [] && id[0] == 'p' then Some(Pf)
    else if |id| < 5 then None
    else if id[0] == 'g' then Some(Gst)
    else if id[0] == 't' then Some(Tds)
    else if id[0] == 'i' then Some(Itr)
    else if id[0] == 'e' then Some(Esi)
    else if id[0] == 'r' && id[4] == '1' then Some(RocAoc4)
    else if id[0] == 'r' && id[4] == '2' then Some(RocMgt7)
    else None
  }

  /** Each catalogue id names its filing, so different entries have
      different ids. */
  lemma TaskIdsDistinct(f: Filing, g: Filing)
    ensures FilingOfId(TaskId(f)) == Some(f)
    ensures f != g ==> TaskId(f) != TaskId(g)
  {
  }

  /** When a filing applies to a profile. A field the profile leaves unset
      compares unequal to every text and counts as false. */
  predicate Applies(profile: BusinessProfile, f: Filing) {
    match f
    case Itr => true
    case Tds => true
    case Gst => profile.annualTurnover != Some("< 20 Lakh")
    case RocAoc4 => profile.businessType == Some("Private Limited Company")
    case RocMgt7 => profile.businessType == Some("Private Limited Company")
    case Pf => profile.hasEmployees == Some(true)
    case Esi => profile.hasEmployees == Some(true)
  }

  function When(b: bool, fs: seq<Filing>): seq<Filing> {
    if b then fs else []
  }

  /** The applicable filings in catalogue order: the two income-tax filings,
      then each group whose condition the profile meets. */
  function Selected(profile: BusinessProfile): seq<Filing> {
    [Itr, Tds]
    + When(Applies(profile, Gst), [Gst])
    + When(Applies(profile, RocAoc4), [RocAoc4, RocMgt7])
    + When(Applies(profile, Pf), [Pf, Esi])
  }

  function TasksOf(fs: seq<Filing>): (r: seq<ComplianceTask>)
    ensures |r| == |fs|
  {
    seq(|fs|, i requires 0 <= i < |fs| => Task(fs[i]))
  }

  /** `generateApplicableTasks`: ITR and TDS, then GST, the two ROC filings
      and PF/ESI as the profile calls for them. The timer before the list
      appears is not modelled. */
  method GenerateApplicableTasks(profile: BusinessProfile) returns (tasks: seq<ComplianceTask>)
    ensures tasks == TasksOf(Selected(profile))
  {
    var gst := profile.annualTurnover != Some("< 20 Lakh");
    var roc := profile.businessType == Some("Private Limited Company");
    var employer := profile.hasEmployees == Some(true);
    assert gst == Applies(profile, Gst) && roc == Applies(profile, RocAoc4) && employer == Applies(profile, Pf);
    tasks := [Task(Itr), Task(Tds)];
    tasks := tasks + if gst then [Task(Gst)] else [];
    tasks := tasks + if roc then [Task(RocAoc4), Task(RocMgt7)] else [];
    tasks := tasks + if employer then [Task(Pf), Task(Esi)] else [];
    SelectedTasks(profile);
  }

  lemma TasksOfGroup(b: bool, f: Filing, g: Filing)
    ensures TasksOf(When(b, [f])) == if b then [Task(f)] else []
    ensures TasksOf(When(b, [f, g])) == if b then [Task(f), Task(g)] else []
    ensures TasksOf([f, g]) == [Task(f), Task(g)]
  {
  }

  lemma TasksOfAppend(a: seq<Filing>, b: seq<Filing>)
    ensures TasksOf(a + b) == TasksOf(a) + TasksOf(b)
  {
  }

  lemma SelectedTasks(profile: BusinessProfile)
    ensures TasksOf(Selected(profile)) ==
      [Task(Itr), Task(Tds)]
      + (if Applies(profile, Gst) then [Task(Gst)] else [])
      + (if Applies(profile, RocAoc4) then [Task(RocAoc4), Task(RocMgt7)] else [])
      + (if Applies(profile, Pf) then [Task(Pf), Task(Esi)] else [])
  {
    var g1, g2, g3 := When(Applies(profile, Gst), [Gst]), When(Applies(profile, RocAoc4), [RocAoc4, RocMgt7]), When(Applies(profile, Pf), [Pf, Esi]);
    TasksOfAppend([Itr, Tds], g1);
    TasksOfAppend([Itr, Tds] + g1, g2);
    TasksOfAppend([Itr, Tds] + g1 + g2, g3);
    TasksOfGroup(Applies(profile, Gst), Gst, Gst);
    TasksOfGroup(Applies(profile, RocAoc4), RocAoc4, RocMgt7);
    TasksOfGroup(Applies(profile, Pf), Pf, Esi);
    TasksOfGroup(true, Itr, Tds);
  }

  /** A filing is generated iff it applies to the profile. */
  lemma SelectedIff(profile: BusinessProfile, f: Filing)
    ensures f in Selected(profile) <==> Applies(profile, f)
  {
  }

  /** The generated list starts with ITR and TDS, both Pending, and holds
      between two and seven tasks. */
  lemma GeneratedBounds(profile: BusinessProfile)
    ensures 2 <= |Selected(profile)| <= 7
    ensures Selected(profile)[0] == Itr && Selected(profile)[1] == Tds
    ensures Task(Itr).status == ComplianceStatus.Pending && Task(Tds).status == ComplianceStatus.Pending
  {
  }

  /** The selection follows the catalogue order strictly, so no filing
      appears twice. */
  lemma SelectedInOrder(profile: BusinessProfile)
    ensures var fs := Selected(profile);
      forall i, j :: 0 <= i < j < |fs| ==> Rank(fs[i]) < Rank(fs[j])
  {
  }

  /** No two generated tasks share an id. */
  lemma GeneratedIdsDistinct(profile: BusinessProfile)
    ensures DistinctIds(TasksOf(Selected(profile)))
  {
    var fs := Selected(profile);
    SelectedInOrder(profile);
    forall i, j | 0 <= i < j < |fs| ensures Task(fs[i]).id != Task(fs[j]).id {
      TaskIdsDistinct(fs[i], fs[j]);
      assert TaskId(fs[i]) == Task(fs[i]).id && TaskId(fs[j]) == Task(fs[j]).id;
    }
  }

  /** The statuses the generated tasks start with: GST Overdue, PF
      Completed, every other filing Pending. */
  lemma GeneratedStatuses(profile: BusinessProfile, i: nat)
    requires i < |Selected(profile)|
    ensures var f := Selected(profile)[i];
      TasksOf(Selected(profile))[i].status ==
        if f == Gst then ComplianceStatus.Overdue
        else if f == Pf then ComplianceStatus.Completed
        else ComplianceStatus.Pending
  {
  }

  predicate DistinctIds(tasks: seq<ComplianceTask>) {
    forall i, j :: 0 <= i < j < |tasks| ==> tasks[i].id != tasks[j].id
  }

  /** `tasks.map(t => t.id === id ? {...t, status: 'Completed'} : t)`. */
  function MarkCompleted(tasks: seq<ComplianceTask>, id: string): (r: seq<ComplianceTask>)
    ensures |r| == |tasks|
    ensures forall i :: 0 <= i < |r| ==>
      r[i] == if tasks[i].id == id then tasks[i].(status := ComplianceStatus.Completed) else tasks[i]
  {
    seq(|tasks|, i requires 0 <= i < |tasks| =>
      if tasks[i].id == id then tasks[i].(status := ComplianceStatus.Completed) else tasks[i])
  }

  /** With distinct ids, marking the id of task `k` completes exactly that
      task and leaves the others as they were. */
  lemma MarkCompletedOne(tasks: seq<ComplianceTask>, k: nat)
    requires DistinctIds(tasks) && k < |tasks|
    ensures MarkCompleted(tasks, tasks[k].id) == tasks[k := tasks[k].(status := ComplianceStatus.Completed)]
    ensures DistinctIds(MarkCompleted(tasks, tasks[k].id))
  {
    var r := MarkCompleted(tasks, tasks[k].id);
    forall i | 0 <= i < |tasks| && i != k ensures r[i] == tasks[i] {
      if i < k {
        assert tasks[i].id != tasks[k].id;
      } else {
        assert tasks[k].id != tasks[i].id;
      }
    }
  }

  /** Marking an id no task has changes nothing. */
  lemma MarkCompletedAbsent(tasks: seq<ComplianceTask>, id: string)
    requires forall i :: 0 <= i < |tasks| ==> tasks[i].id != id
    ensures MarkCompleted(tasks, id) == tasks
  {
  }

  predicate IsOpen(t: ComplianceTask) {
    t.status == ComplianceStatus.Pending || t.status == ComplianceStatus.Overdue
  }

  /** The number of tasks in a status (`tasks.filter(...).length`). */
  function CountStatus(tasks: seq<ComplianceTask>, s: ComplianceStatus): nat {
    |Filter(tasks, (t: ComplianceTask) => t.status == s)|
  }

  /** The four figures of the statistics cards. */
  datatype Stats = Stats(total: nat, completed: nat, pending: nat, overdue: nat)

  function TaskStats(tasks: seq<ComplianceTask>): Stats {
    Stats(|tasks|, CountStatus(tasks, ComplianceStatus.Completed), CountStatus(tasks, ComplianceStatus.Pending), CountStatus(tasks, ComplianceStatus.Overdue))
  }

  /** The four status counts add up to the list length. */
  lemma {:induction false} CountsPartition(tasks: seq<ComplianceTask>)
    ensures CountStatus(tasks, ComplianceStatus.Completed) + CountStatus(tasks, ComplianceStatus.Pending) + CountStatus(tasks, ComplianceStatus.Overdue)
      + CountStatus(tasks, ComplianceStatus.PaymentProcessing) == |tasks|
  {
    if tasks != [] {
      CountsPartition(tasks[1..]);
    }
  }

  /** The three status cards never count more tasks than the total card;
      a task in 'Payment Processing' is counted in none of them. */
  lemma StatsBounded(tasks: seq<ComplianceTask>)
    ensures var st := TaskStats(tasks);
      st.completed + st.pending + st.overdue + CountStatus(tasks, ComplianceStatus.PaymentProcessing) == st.total
    ensures var st := TaskStats(tasks); st.completed + st.pending + st.overdue <= st.total
  {
    CountsPartition(tasks);
  }

  /** The page's task state, with the task chosen for payment. */
  class CompliancePage {
    var tasks: seq<ComplianceTask>
    var taskToPay: Option<ComplianceTask>
    var isPaymentModalOpen: bool

    constructor ()
      ensures tasks == [] && taskToPay == None && !isPaymentModalOpen
    {
      tasks := [];
      taskToPay := None;
      isPaymentModalOpen := false;
    }

    /** The effect that runs when the profile changes: generate the tasks
        for a profile, or clear them when there is none. */
    method ProfileChanged(profile: Option<BusinessProfile>)
      modifies this`tasks
      ensures profile.Some? ==> tasks == TasksOf(Selected(profile.value))
      ensures profile.None? ==> tasks == []
    {
      if profile.Some? {
        tasks := GenerateApplicableTasks(profile.value);
      } else {
        tasks := [];
      }
    }

    /** `handleOpenPaymentModal`. */
    method HandleOpenPaymentModal(task: ComplianceTask)
      modifies this`taskToPay, this`isPaymentModalOpen
      ensures taskToPay == Some(task) && isPaymentModalOpen
    {
      taskToPay := Some(task);
      isPaymentModalOpen := true;
    }

    /** `handlePaymentSuccess`: the task chosen for payment is marked
        Completed, and the modal closes. */
    method HandlePaymentSuccess()
      modifies this`tasks, this`taskToPay, this`isPaymentModalOpen
      ensures old(taskToPay).Some? ==> tasks == MarkCompleted(old(tasks), old(taskToPay).value.id)
      ensures old(taskToPay).None? ==> tasks == old(tasks)
      ensures taskToPay == None && !isPaymentModalOpen
    {
      if taskToPay.Some? {
        tasks := MarkCompleted(tasks, taskToPay.value.id);
      }
      isPaymentModalOpen := false;
      taskToPay := None;
    }

    /** `handleSync`: one open task, picked by `choice` (standing for
        `Math.random()`), is marked Completed; with no open task nothing
        changes. */
    method HandleSync(choice: nat)
      requires DistinctIds(tasks)
      modifies this`tasks
      ensures DistinctIds(tasks)
      ensures Filter(old(tasks), IsOpen) == [] ==> tasks == old(tasks)
      ensures Filter(old(tasks), IsOpen) != [] ==>
        exists k :: 0 <= k < |old(tasks)| && IsOpen(old(tasks)[k])
          && tasks == old(tasks)[k := old(tasks)[k].(status := ComplianceStatus.Completed)]
    {
      var pendingOrOverdue := Filter(tasks, IsOpen);
      if |pendingOrOverdue| > 0 {
        var taskToUpdate := pendingOrOverdue[choice % |pendingOrOverdue|];
        FilterMembers(tasks, IsOpen, taskToUpdate);
        var k :| 0 <= k < |tasks| && tasks[k] == taskToUpdate;
        MarkCompletedOne(tasks, k);
        tasks := MarkCompleted(tasks, taskToUpdate.id);
      }
    }
  }
}
