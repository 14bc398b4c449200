/** The admin dashboard: four counters, the appointments-by-status chart and the report table. */
module AdminDashboard {
  import opened Types
  import opened MockDatabase
  import SeedData

  /** The four counters. */
  datatype Stats = Stats(users: nat, doctors: nat, appointments: nat, pending: nat)

  /** `setStats({...})`: the three table lengths and the number of pending appointments. */
  function ComputeStats(users: seq<Account>, doctors: seq<Account>, apts: seq<Appointment>): (st: Stats)
    ensures st.users == |users| && st.doctors == |doctors| && st.appointments == |apts|
    ensures st.pending == CountStatus(apts, Pending) && st.pending <= st.appointments
  {
    Stats(|users|, |doctors|, |apts|, CountStatus(apts, Pending))
  }

  /** The keys `statusCounts` can hold. */
  const STATUS_NAMES: set<string> := {"pending", "approved", "completed", "cancelled"}

  /** `statusCounts[key] || 0`. */
  function CountAt(counts: map<string, nat>, key: string): nat {
    if key in counts then counts[key] else 0
  }

  /** `counts` is the tally of `apts` by status: a key per status that occurs, holding its count. */
  ghost predicate TallyOf(counts: map<string, nat>, apts: seq<Appointment>) {
    && counts.Keys <= STATUS_NAMES
    && forall st :: CountAt(counts, StatusName(st)) == CountStatus(apts, st)
  }

  /** Counting over `s + [x]` counts `x` once more. */
  lemma {:induction false} CountStatusAppend(s: seq<Appointment>, x: Appointment, st: Status)
    ensures CountStatus(s + [x], st) == CountStatus(s, st) + (if x.status == st then 1 else 0)
  {
    if s == [] {
      assert s + [x] == [x];
    } else {
      assert (s + [x])[1..] == s[1..] + [x];
      CountStatusAppend(s[1..], x, st);
    }
  }

  /** `appointments.reduce(...)`: one pass, bumping the entry of each appointment's status. */
  method StatusCounts(apts: seq<Appointment>) returns (counts: map<string, nat>)
    ensures TallyOf(counts, apts)
  {
    counts := map[];
    var i := 0;
    while i < |apts|
      invariant 0 <= i <= |apts|
      invariant TallyOf(counts, apts[..i])
    {
      var key := StatusName(apts[i].status);
      counts := counts[key := CountAt(counts, key) + 1];
      forall st
        ensures CountAt(counts, StatusName(st)) == CountStatus(apts[..i + 1], st)
      {
        assert apts[..i + 1] == apts[..i] + [apts[i]];
        CountStatusAppend(apts[..i], apts[i], st);
      }
      i := i + 1;
    }
    assert apts[..i] == apts;
  }

  /** One bar of the chart. */
  datatype Bar = Bar(name: string, count: nat)

  /** `setChartData([...])`: the four buckets, a missing status counting 0. */
  function ChartData(counts: map<string, nat>): (bars: seq<Bar>)
    ensures |bars| == 4
    ensures bars[0].name == "Pending" && bars[1].name == "Approved"
    ensures bars[2].name == "Completed" && bars[3].name == "Cancelled"
  {
    [ Bar("Pending", CountAt(counts, "pending")),
      Bar("Approved", CountAt(counts, "approved")),
      Bar("Completed", CountAt(counts, "completed")),
      Bar("Cancelled", CountAt(counts, "cancelled")) ]
  }

  /** Every appointment has exactly one of the four statuses. */
  lemma {:induction false} StatusesPartition(apts: seq<Appointment>)
    ensures CountStatus(apts, Pending) + CountStatus(apts, Approved)
          + CountStatus(apts, Completed) + CountStatus(apts, Cancelled) == |apts|
  {
    if apts != [] {
      StatusesPartition(apts[1..]);
    }
  }

  /** The chart's bars sum to the number of appointments, and its first bar is the pending counter. */
  lemma ChartAddsUp(users: seq<Account>, doctors: seq<Account>, apts: seq<Appointment>, counts: map<string, nat>)
    requires TallyOf(counts, apts)
    ensures var bars := ChartData(counts);
      bars[0].count + bars[1].count + bars[2].count + bars[3].count == |apts|
      && bars[0].count == ComputeStats(users, doctors, apts).pending
  {
    assert CountAt(counts, StatusName(Pending)) == CountStatus(apts, Pending);
    assert CountAt(counts, StatusName(Approved)) == CountStatus(apts, Approved);
    assert CountAt(counts, StatusName(Completed)) == CountStatus(apts, Completed);
    assert CountAt(counts, StatusName(Cancelled)) == CountStatus(apts, Cancelled);
    StatusesPartition(apts);
  }

  /** The "Total Patients" card shows all of `db_users`, so on the seed it counts the admin too. */
  lemma TotalPatientsIncludesAdmin(t: string)
    ensures ComputeStats(SeedData.InitialUsers(t), SeedData.SeedDoctors(t), []).users == 3
    ensures SeedData.InitialUsers(t)[2].role == AdminRole
  {
    SeedData.SeedShape(t);
  }

  /** The column headings of the report. */
  const REPORT_COLUMNS: seq<string> := ["Date", "Time", "Patient", "Doctor", "Status", "Reason"]

  /** One report row, in the column order. */
  function ReportRow(a: Appointment): seq<string> {
    [a.date, a.time, a.userName, a.doctorName, StatusName(a.status), a.reason]
  }

  /** `appointments.map(...)`: one row per appointment, in stored order. */
  function ReportRows(apts: seq<Appointment>): (rows: seq<seq<string>>)
    ensures |rows| == |apts|
    ensures forall k :: 0 <= k < |apts| ==> rows[k] == ReportRow(apts[k])
  {
    if apts == [] then [] else [ReportRow(apts[0])] + ReportRows(apts[1..])
  }

  /** Every row has a cell per column, and the Patient and Doctor cells are the booking's snapshots. */
  lemma ReportRowShape(apts: seq<Appointment>, k: nat)
    requires k < |apts|
    ensures |ReportRows(apts)[k]| == |REPORT_COLUMNS|
    ensures ReportRows(apts)[k][2] == apts[k].userName && ReportRows(apts)[k][3] == apts[k].doctorName
    ensures ReportRows(apts)[k][4] == StatusName(apts[k].status)
  {
  }

  /** The page's state. */
  class DashboardPage {
    var stats: Stats
    var chartData: seq<Bar>

    constructor ()
      ensures stats == Stats(0, 0, 0, 0) && chartData == []
    {
      stats := Stats(0, 0, 0, 0);
      chartData := [];
    }

    /** The mount effect: read the three tables, then set the counters and the chart. */
    method FetchData(db: Store)
      modifies this, db
      ensures stats == ComputeStats(old(db.UsersView()), old(db.DoctorsView()), old(db.AppointmentsView()))
      ensures exists counts :: TallyOf(counts, old(db.AppointmentsView())) && chartData == ChartData(counts)
      ensures db.users == Some(old(db.UsersView())) && db.doctors == Some(old(db.DoctorsView()))
      ensures db.appointments == Some(old(db.AppointmentsView()))
    {
      var users := db.GetUsers();
      var doctors := db.GetDoctors();
      var apts := db.GetAppointments();
      stats := ComputeStats(users, doctors, apts);
      var counts := StatusCounts(apts);
      chartData := ChartData(counts);
    }

    /** `handleGenerateReport`'s table body. */
    method ReportTable(db: Store) returns (rows: seq<seq<string>>)
      modifies db
      ensures rows == ReportRows(old(db.AppointmentsView()))
      ensures db.appointments == Some(old(db.AppointmentsView()))
      ensures db.users == old(db.users) && db.doctors == old(db.doctors)
    {
      var apts := db.GetAppointments();
      rows := ReportRows(apts);
    }
  }
}
