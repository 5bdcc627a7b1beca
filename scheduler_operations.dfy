/**
 * The scheduler log: an append-only collection of start and stop entries.
 * The scheduler counts as active exactly when the newest entry, by
 * timestamp, is a start.
 */
module SchedulerOperations {
  import opened Wrappers
  import opened Models
  import opened DocumentQuery

  function TimestampKey(l: SchedulerLog): int { l.timestamp }

  function LogIdOf(l: SchedulerLog): string { l.id }

  /** Entry `i` has a timestamp no other entry exceeds. */
  predicate IsNewest(logs: seq<SchedulerLog>, i: int)
  {
    0 <= i < |logs| && forall j :: 0 <= j < |logs| ==> logs[j].timestamp <= logs[i].timestamp
  }

  /**
   * `IsSchedulerActive`: query the log newest first with a limit of one. A
   * failed query answers false with its error; an empty log answers false.
   */
  function IsSchedulerActive(logs: seq<SchedulerLog>, queryFault: Option<string>)
    : (r: (bool, Option<string>))
    ensures queryFault.Some? ==> r == (false, queryFault)
    ensures queryFault.None? ==> r.1 == None
    ensures queryFault.None? && logs == [] ==> !r.0
    ensures queryFault.None? && logs != [] ==>
              exists i :: IsNewest(logs, i) && (r.0 <==> logs[i].action == Start)
  {
    if queryFault.Some? then (false, queryFault)
    else
      var sorted := SortDesc(logs, TimestampKey);
      var newest := ApplyLimit(sorted, 1);
      if |newest| == 0 then (false, None)
      else
        assert newest[0] == sorted[0];
        NewestOfSorted(logs, sorted);
        (newest[0].action == Start, None)
  }

  /** The head of the log sorted newest first is a newest entry of the log. */
  lemma NewestOfSorted(logs: seq<SchedulerLog>, sorted: seq<SchedulerLog>)
    requires sorted == SortDesc(logs, TimestampKey) && sorted != []
    ensures exists i :: IsNewest(logs, i) && logs[i] == sorted[0]
  {
    assert sorted[0] in multiset(logs);
    var i :| 0 <= i < |logs| && logs[i] == sorted[0];
    forall j | 0 <= j < |logs| ensures logs[j].timestamp <= logs[i].timestamp {
      assert logs[j] in multiset(sorted);
      var k :| 0 <= k < |sorted| && sorted[k] == logs[j];
      if k > 0 {
        assert TimestampKey(sorted[0]) >= TimestampKey(sorted[k]);
      }
    }
  }

  /**
   * When the newest entries all agree, they decide: the scheduler is active
   * exactly when they are starts.
   */
  lemma ActiveIffNewestIsStart(logs: seq<SchedulerLog>, i: int)
    requires IsNewest(logs, i)
    requires forall j :: 0 <= j < |logs| && logs[j].timestamp == logs[i].timestamp ==>
               logs[j].action == logs[i].action
    ensures IsSchedulerActive(logs, None) == (logs[i].action == Start, None)
  {
    var r := IsSchedulerActive(logs, None);
    var k :| IsNewest(logs, k) && (r.0 <==> logs[k].action == Start);
    assert logs[k].timestamp == logs[i].timestamp;
  }

  /** A start entry. Its id and time come from the caller, as the log's constructor is not part of this model. */
  function StartLog(id: string, now: Time): (l: SchedulerLog)
    ensures l.action == Start && l.id == id && l.timestamp == now && l.startId.None?
  {
    SchedulerLog(id, Start, now, None)
  }

  /** A stop entry, naming the start it ends. */
  function StopLog(id: string, startId: string, now: Time): (l: SchedulerLog)
    ensures l.action == Stop && l.id == id && l.timestamp == now && l.startId == Some(startId)
  {
    SchedulerLog(id, Stop, now, Some(startId))
  }

  /** Appending one entry to the log, as `insertOne` does. */
  function AppendLog(logs: seq<SchedulerLog>, entry: SchedulerLog, fault: Option<string>)
    : (r: Result<seq<SchedulerLog>, string>)
    ensures r.Success? <==> fault.None? && forall i :: 0 <= i < |logs| ==> logs[i].id != entry.id
    ensures r.Success? ==> r.value == logs + [entry]
    ensures r.Failure? ==> r.error == if fault.Some? then fault.value else DuplicateKey
  {
    InsertOne(logs, entry, LogIdOf, fault)
  }

  /** A start entry newer than every other entry makes the scheduler active. */
  lemma NewerStartActivates(logs: seq<SchedulerLog>, id: string, now: Time)
    requires forall j :: 0 <= j < |logs| ==> logs[j].timestamp < now
    ensures IsSchedulerActive(logs + [StartLog(id, now)], None) == (true, None)
  {
    NewerEntryDecides(logs, StartLog(id, now));
  }

  /** A stop entry newer than every other entry makes the scheduler inactive. */
  lemma NewerStopDeactivates(logs: seq<SchedulerLog>, id: string, startId: string, now: Time)
    requires forall j :: 0 <= j < |logs| ==> logs[j].timestamp < now
    ensures IsSchedulerActive(logs + [StopLog(id, startId, now)], None) == (false, None)
  {
    NewerEntryDecides(logs, StopLog(id, startId, now));
  }

  lemma NewerEntryDecides(logs: seq<SchedulerLog>, entry: SchedulerLog)
    requires forall j :: 0 <= j < |logs| ==> logs[j].timestamp < entry.timestamp
    ensures IsSchedulerActive(logs + [entry], None) == (entry.action == Start, None)
  {
    var after := logs + [entry];
    var n := |logs|;
    assert after[n] == entry;
    forall j | 0 <= j < n ensures after[j].timestamp < after[n].timestamp {
      assert after[j] == logs[j];
    }
    assert forall j :: 0 <= j < |after| && after[j].timestamp == after[n].timestamp ==> j == n;
    ActiveIffNewestIsStart(after, n);
  }
}
