/** The pure parts of `MonitoringDashboard`
    (frontend/src/components/MonitoringDashboard.tsx): the status filter, the
    counts, and the status presentation. The query that loads the logs is an
    input. */
module Monitoring {
  import opened Js
  import opened Strings

  const Success: string := "success"
  const Failed: string := "failed"
  const FlaggedStatus: string := "flagged"

  /** A row of the `logs` table joined with its goal's title. The column type
      admits three statuses; any string is allowed here so that the fallbacks
      of the presentation functions can be stated. */
  datatype LogEntry = LogEntry(id: string, goalId: string, status: string, goalTitle: Option<string>)

  predicate KnownStatus(status: string) {
    status == Success || status == Failed || status == FlaggedStatus
  }

  /** The `filter` state: `'all'` or one status. The value `'all'` is always
      `All`; `Only` carries a status name. */
  datatype LogFilter = All | Only(status: string)

  /** `logs.filter(log => filter === 'all' || log.status === filter)` */
  function FilteredLogs(logs: seq<LogEntry>, filter: LogFilter): (r: seq<LogEntry>)
    ensures |r| <= |logs|
  {
    if logs == [] then []
    else (if filter.All? || logs[0].status == filter.status then [logs[0]] else []) + FilteredLogs(logs[1..], filter)
  }

  /** The status of each log, in order. */
  function Statuses(logs: seq<LogEntry>): seq<string> {
    seq(|logs|, i requires 0 <= i < |logs| => logs[i].status)
  }

  /** `logs.filter(log => log.status === status).length`: the number of logs
      with that status, so at most the number of logs, and zero exactly when
      no log has that status. */
  function CountStatus(logs: seq<LogEntry>, status: string): (n: nat)
    ensures n == multiset(Statuses(logs))[status]
    ensures n <= |logs|
    ensures n == 0 <==> forall i :: 0 <= i < |logs| ==> logs[i].status != status
  {
    NoneOfStatus(logs, status);
    FilterCountsStatus(logs, status);
    |FilteredLogs(logs, Only(status))|
  }

  /** The status filter keeps one log per occurrence of the status. */
  lemma {:induction false} FilterCountsStatus(logs: seq<LogEntry>, status: string)
    ensures |FilteredLogs(logs, Only(status))| == multiset(Statuses(logs))[status]
  {
    if logs != [] {
      FilterCountsStatus(logs[1..], status);
      assert Statuses(logs) == [logs[0].status] + Statuses(logs[1..]);
    }
  }

  lemma NoneOfStatus(logs: seq<LogEntry>, status: string)
    ensures FilteredLogs(logs, Only(status)) == [] <==> forall i :: 0 <= i < |logs| ==> logs[i].status != status
  {
    var r := FilteredLogs(logs, Only(status));
    if r != [] {
      FilterOnlyKeepsStatus(logs, status, r[0]);
    }
    if i :| 0 <= i < |logs| && logs[i].status == status {
      FilterOnlyKeepsStatus(logs, status, logs[i]);
    }
  }

  datatype Stats = Stats(total: nat, success: nat, failed: nat, flagged: nat)

  /** `stats` */
  function ComputeStats(logs: seq<LogEntry>): (s: Stats)
    ensures s.total == |logs|
    ensures s.success <= s.total && s.failed <= s.total && s.flagged <= s.total
    // each count is the number of logs with its own status
    ensures s.success == multiset(Statuses(logs))[Success]
    ensures s.failed == multiset(Statuses(logs))[Failed]
    ensures s.flagged == multiset(Statuses(logs))[FlaggedStatus]
  {
    Stats(|logs|, CountStatus(logs, Success), CountStatus(logs, Failed), CountStatus(logs, FlaggedStatus))
  }

  // ---------------------------------------------------------------- presentation

  datatype Icon = CheckCircle | XCircle | AlertTriangle | Clock

  /** `getStatusIcon`: one icon per known status, the clock for any other. */
  function StatusIcon(status: string): (icon: Icon)
    ensures icon == CheckCircle <==> status == Success
    ensures icon == XCircle <==> status == Failed
    ensures icon == AlertTriangle <==> status == FlaggedStatus
    ensures icon == Clock <==> !KnownStatus(status)
  {
    if status == Success then CheckCircle
    else if status == Failed then XCircle
    else if status == FlaggedStatus then AlertTriangle
    else Clock
  }

  const GreenClass: string := "bg-green-100 text-green-800"
  const RedClass: string := "bg-red-100 text-red-800"
  const YellowClass: string := "bg-yellow-100 text-yellow-800"
  const GrayClass: string := "bg-gray-100 text-gray-800"

  /** `getStatusColor`: one colour per known status, gray for any other. */
  function StatusColor(status: string): (color: string)
    ensures color == GreenClass <==> status == Success
    ensures color == RedClass <==> status == Failed
    ensures color == YellowClass <==> status == FlaggedStatus
    ensures color == GrayClass <==> !KnownStatus(status)
  {
    assert GreenClass[3] == 'g' && RedClass[3] == 'r' && YellowClass[3] == 'y' && GrayClass[3] == 'g';
    assert GreenClass[5] == 'e' && GrayClass[5] == 'a';
    if status == Success then GreenClass
    else if status == Failed then RedClass
    else if status == FlaggedStatus then YellowClass
    else GrayClass
  }

  const SuccessLabel: string := "Succesvol"
  const FailedLabel: string := "Gefaald"
  const BlockedLabel: string := "Geblokkeerd"

  /** The label in the table and in the detail view: "Succesvol" and
      "Gefaald" for those two statuses, "Geblokkeerd" for any other. */
  function StatusLabel(status: string): (shown: string)
    ensures shown == SuccessLabel <==> status == Success
    ensures shown == FailedLabel <==> status == Failed
    ensures shown == BlockedLabel <==> status != Success && status != Failed
  {
    assert SuccessLabel[0] == 'S' && FailedLabel[0] == 'G' && BlockedLabel[0] == 'G';
    assert FailedLabel[2] == 'f' && BlockedLabel[2] == 'b';
    if status == Success then SuccessLabel
    else if status == Failed then FailedLabel
    else BlockedLabel
  }

  const UnknownGoal: string := "Onbekend leerdoel"

  /** `log.goal?.title || 'Onbekend leerdoel'` */
  function GoalLabel(log: LogEntry): (shownTitle: string)
    ensures shownTitle == UnknownGoal <==> log.goalTitle.None? || log.goalTitle.value == "" || log.goalTitle.value == UnknownGoal
    ensures shownTitle != UnknownGoal ==> log.goalTitle == Some(shownTitle)
  {
    if log.goalTitle.Some? && log.goalTitle.value != "" then log.goalTitle.value else UnknownGoal
  }

  /** `log.goal_id.slice(0, 8)` followed by `...` */
  function ShortId(goalId: string): (shown: string)
    ensures |shown| == (if |goalId| < 8 then |goalId| else 8) + 3
    ensures shown[..|shown| - 3] == goalId[..|shown| - 3]
    ensures shown[|shown| - 3..] == "..."
  {
    var n := if |goalId| < 8 then |goalId| else 8;
    goalId[..n] + "..."
  }

  /** `setLogs(data || [])` after a query without error; the old list stays
      when the query fails. */
  function LoadedLogs(previous: seq<LogEntry>, queryFailed: bool, data: Option<seq<LogEntry>>): (r: seq<LogEntry>)
    ensures queryFailed ==> r == previous
    ensures !queryFailed && data.None? ==> r == []
    ensures !queryFailed && data.Some? ==> r == data.value
  {
    if queryFailed then previous else data.GetOr([])
  }

  // ---------------------------------------------------------------- properties

  /** Filter `all` keeps every log. */
  lemma {:induction false} FilterAllKeepsEverything(logs: seq<LogEntry>)
    ensures FilteredLogs(logs, All) == logs
  {
    if logs != [] {
      FilterAllKeepsEverything(logs[1..]);
      assert logs == [logs[0]] + logs[1..];
    }
  }

  /** A status filter keeps exactly the logs with that status, in their
      original order and with every copy. */
  lemma {:induction false} FilterOnlyKeepsStatus(logs: seq<LogEntry>, status: string, log: LogEntry)
    ensures log in FilteredLogs(logs, Only(status)) <==> log in logs && log.status == status
    ensures IsSubsequence(FilteredLogs(logs, Only(status)), logs)
    ensures multiset(FilteredLogs(logs, Only(status)))[log] == if log.status == status then multiset(logs)[log] else 0
  {
    if logs != [] {
      FilterOnlyKeepsStatus(logs[1..], status, log);
      var rest := FilteredLogs(logs[1..], Only(status));
      assert logs == [logs[0]] + logs[1..];
      assert multiset(logs) == multiset([logs[0]]) + multiset(logs[1..]);
      if logs[0].status == status {
        var r := FilteredLogs(logs, Only(status));
        assert r[0] == logs[0] && r[1..] == rest;
      } else {
        assert FilteredLogs(logs, Only(status)) == rest;
        SubsequenceConsRight(rest, logs[0], logs[1..]);
      }
    }
  }

  /** With every status one of the three known ones, the three counts add up
      to the total. */
  lemma {:induction false} CountsAddUp(logs: seq<LogEntry>)
    requires forall i :: 0 <= i < |logs| ==> KnownStatus(logs[i].status)
    ensures var s := ComputeStats(logs); s.success + s.failed + s.flagged == s.total
  {
    if logs != [] {
      CountsAddUp(logs[1..]);
      assert KnownStatus(logs[0].status);
    }
  }

  /** The label and the colour disagree on unknown statuses: the label calls
      them blocked, the colour and the icon treat them as neutral. */
  lemma UnknownStatusPresentation(status: string)
    requires !KnownStatus(status)
    ensures StatusLabel(status) == StatusLabel(FlaggedStatus)
    ensures StatusColor(status) == GrayClass != StatusColor(FlaggedStatus)
    ensures StatusIcon(status) == Clock != StatusIcon(FlaggedStatus)
  {
    assert GrayClass[3] == 'g' && YellowClass[3] == 'y';
  }

  /** Each known status has its own colour, icon and label. */
  lemma KnownStatusesAreDistinct(s1: string, s2: string)
    requires KnownStatus(s1) && KnownStatus(s2) && s1 != s2
    ensures StatusColor(s1) != StatusColor(s2)
    ensures StatusIcon(s1) != StatusIcon(s2)
    ensures StatusLabel(s1) != StatusLabel(s2)
  {
    assert GreenClass[3] == 'g' && RedClass[3] == 'r' && YellowClass[3] == 'y';
    assert SuccessLabel[0] == 'S' && FailedLabel[0] == 'G' && BlockedLabel[0] == 'G';
    assert FailedLabel[1] == 'e' && BlockedLabel[1] == 'e' && FailedLabel[2] == 'f' && BlockedLabel[2] == 'b';
  }
}
