/** The dashboard's mock data service: a fixed data set per role, looked up
    by the role's name with the staff data set as the fallback, and a fixed
    performance table per reporting period, with the 30-day table as the
    fallback. */
module DashboardService {
  import opened Common

  /** One row of the task summary. */
  datatype TaskSummary = TaskSummary(kind: string, count: nat, status: string)

  /** One bar of the performance chart. */
  datatype Point = Point(name: string, completed: nat, pending: nat)

  /** One recent activity; its time is given as minutes before the call. */
  datatype Activity = Activity(id: nat, kind: string, message: string, minutesAgo: nat, userName: string)

  /** What the dashboard shows. The staff data set has no
      `performanceData` at all. */
  datatype Dataset = Dataset(
    activeCustomers: nat,
    pendingTasks: nat,
    completionRate: nat,
    activeWorkflows: nat,
    taskSummary: seq<TaskSummary>,
    performanceData: Option<seq<Point>>,
    recentActivities: seq<Activity>)

  const SixMonths: seq<Point> := [
    Point("Jan", 65, 28), Point("Feb", 78, 22), Point("Mar", 82, 18),
    Point("Apr", 75, 25), Point("May", 88, 12), Point("Jun", 92, 8)
  ]

  const Week: seq<Point> := [
    Point("Mon", 12, 3), Point("Tue", 15, 2), Point("Wed", 18, 4), Point("Thu", 14, 6),
    Point("Fri", 22, 2), Point("Sat", 8, 1), Point("Sun", 5, 0)
  ]

  const AdminData := Dataset(245, 32, 87, 12,
    [TaskSummary("call", 15, "pending"), TaskSummary("email", 8, "pending"), TaskSummary("whatsapp", 9, "pending")],
    Some(SixMonths),
    [Activity(1, "task_completed", "John Doe completed call task for Sarah Wilson", 2, "John Doe"),
     Activity(2, "customer_added", "New customer Michael Brown was added to the system", 15, "Jane Smith"),
     Activity(3, "workflow_triggered", "Follow-up workflow triggered for 3 customers", 45, "System")])

  const StaffData := Dataset(28, 12, 93, 3,
    [TaskSummary("call", 6, "pending"), TaskSummary("email", 3, "pending"), TaskSummary("whatsapp", 3, "pending")],
    None,
    [Activity(1, "task_completed", "You completed email task for Jennifer Davis", 10, "You"),
     Activity(2, "task_assigned", "New call task assigned for Robert Johnson", 30, "System")])

  /** What the service returns when its own lookup goes wrong: all zeros and
      empty lists. */
  const FallbackData := Dataset(0, 0, 0, 0, [], Some([]), [])

  /** The methods every plain object inherits. Reading one of them as a
      property yields a function, not a data set. */
  const InheritedMethods: set<string> := {
    "constructor", "hasOwnProperty", "isPrototypeOf", "propertyIsEnumerable",
    "toLocaleString", "toString", "valueOf",
    "__defineGetter__", "__defineSetter__", "__lookupGetter__", "__lookupSetter__"
  }

  /** What reading a property of the mock data object yields. */
  datatype Property = Absent | Data(d: Dataset) | Method

  /** `mockData[key]`: its own two data sets, an inherited method, or
      `undefined`. */
  function MockDataAt(key: string): Property {
    if key == "admin" then Data(AdminData)
    else if key == "staff" then Data(StaffData)
    else if key in InheritedMethods then Method
    else Absent
  }

  /** `getDashboardData`: a falsy or non-string role gets the staff data; a
      role naming a data set gets that one; any other role name gets the
      staff data, except a name the object inherits, whose lookup is not an
      object, so the service falls back to the all-zero data set. */
  function GetDashboardData(role: Value): (d: Dataset)
    ensures !(role.Str? && role.s != "") ==> d == StaffData
    ensures role == Str("admin") ==> d == AdminData
    ensures role.Str? && role.s != "" && role.s != "admin" && role.s !in InheritedMethods ==> d == StaffData
    ensures role.Str? && role.s in InheritedMethods ==> d == FallbackData
  {
    if !Truthy(role) || !role.Str? then StaffData
    else
      var data := match MockDataAt(role.s)
        case Absent => Data(StaffData)
        case found => found;
      if data.Data? then data.d else FallbackData
  }

  /** Only the admin dashboard has a performance chart with data in it;
      staff get none, and the fallback an empty one. */
  lemma OnlyAdminSeesPerformance(role: Value)
    ensures var d := GetDashboardData(role);
      (d.performanceData.Some? && d.performanceData.value != []) <==> role == Str("admin")
  {
  }

  /** Whatever the role, the service returns one of its three data sets. */
  lemma DashboardDataIsOneOfThree(role: Value)
    ensures GetDashboardData(role) in {AdminData, StaffData, FallbackData}
  {
  }

  /** The known reporting periods. */
  function PeriodsAt(key: string): Option<seq<Point>> {
    if key == "7days" then Some(Week)
    else if key == "30days" || key == "6months" then Some(SixMonths)
    else None
  }

  /** `getPerformanceMetrics(period = '6months')`: `None` is an omitted
      period. The week's table for `7days`; otherwise the six-month table,
      for the two longer periods and, through the `30days` fallback, for
      any period it does not know. */
  function GetPerformanceMetrics(period: Option<string>): (r: seq<Point>)
    ensures period == Some("7days") ==> r == Week && |r| == 7
    ensures period != Some("7days") ==> r == SixMonths && |r| == 6
  {
    var key := if period.Some? then period.value else "6months";
    match PeriodsAt(key)
    case Some(points) => points
    case None => PeriodsAt("30days").value
  }

  /** The default period and any unknown period give the 30-day table,
      which is the admin dashboard's chart. */
  lemma UnknownPeriodFallsBackToThirtyDays(period: string)
    requires period != "7days" && period != "30days" && period != "6months"
    ensures GetPerformanceMetrics(Some(period)) == GetPerformanceMetrics(Some("30days"))
    ensures GetPerformanceMetrics(None) == GetPerformanceMetrics(Some("30days"))
    ensures GetPerformanceMetrics(Some("30days")) == GetDashboardData(Str("admin")).performanceData.value
  {
  }
}
