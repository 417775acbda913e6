/**
 * Sending a report: one email per recipient of each schedule, each send's failure caught
 * and recorded, each schedule stamped with the time it ran, and one activity-log entry for
 * the batch. The mail service is an oracle: `sent(k, r)` says whether the `k`-th send
 * attempt of the run, addressed to `r`, went through.
 */
module ReportDelivery {
  import opened Common
  import opened Domain
  import opened ReportData
  import opened Store

  /** Each recipient of each schedule, schedule by schedule, in recipient order. */
  function Recipients(batch: seq<ReportSchedule>): seq<string> {
    if batch == [] then [] else Recipients(batch[..|batch| - 1]) + batch[|batch| - 1].recipients
  }

  lemma {:induction false} RecipientsAppend(a: seq<ReportSchedule>, b: seq<ReportSchedule>)
    ensures Recipients(a + b) == Recipients(a) + Recipients(b)
    decreases |b|
  {
    if b == [] {
      assert a + b == a;
    } else {
      assert (a + b)[..|a + b| - 1] == a + b[..|b| - 1];
      RecipientsAppend(a, b[..|b| - 1]);
    }
  }

  /**
   * The recipients come schedule after schedule: recipient `j` of schedule `i` sits right
   * after the recipients of the schedules before `i`.
   */
  lemma RecipientsOrder(batch: seq<ReportSchedule>, i: nat, j: nat)
    requires i < |batch| && j < |batch[i].recipients|
    ensures |Recipients(batch[..i])| + j < |Recipients(batch)|
    ensures Recipients(batch)[|Recipients(batch[..i])| + j] == batch[i].recipients[j]
  {
    assert batch == batch[..i] + [batch[i]] + batch[i + 1..];
    RecipientsAppend(batch[..i] + [batch[i]], batch[i + 1..]);
    RecipientsAppend(batch[..i], [batch[i]]);
    assert [batch[i]][..0] == [];
  }

  /** The results of sending to each of `rs` in turn, the first send being attempt `start`. */
  function Deliveries(rs: seq<string>, start: nat, sent: (nat, string) -> bool): (r: seq<EmailResult>)
    ensures |r| == |rs|
    ensures forall k :: 0 <= k < |rs| ==> r[k] == EmailResult(rs[k], sent(start + k, rs[k]))
  {
    seq(|rs|, k requires 0 <= k < |rs| => EmailResult(rs[k], sent(start + k, rs[k])))
  }

  lemma DeliveriesSnoc(rs: seq<string>, x: string, start: nat, sent: (nat, string) -> bool)
    ensures Deliveries(rs + [x], start, sent) == Deliveries(rs, start, sent) + [EmailResult(x, sent(start + |rs|, x))]
  {
  }

  function ScheduleIds(batch: seq<ReportSchedule>): set<string> {
    set k | 0 <= k < |batch| :: batch[k].id
  }

  lemma ScheduleIdsSnoc(batch: seq<ReportSchedule>, i: nat)
    requires i < |batch|
    ensures ScheduleIds(batch[..i + 1]) == ScheduleIds(batch[..i]) + {batch[i].id}
  {
    var a, b := batch[..i + 1], batch[..i];
    forall x | x in ScheduleIds(a) ensures x in ScheduleIds(b) + {batch[i].id} {
      var k :| 0 <= k < |a| && a[k].id == x;
      if k < i {
        assert b[k] == a[k];
      }
    }
    forall x | x in ScheduleIds(b) ensures x in ScheduleIds(a) {
      var k :| 0 <= k < |b| && b[k].id == x;
      assert a[k] == b[k];
    }
    assert a[i].id in ScheduleIds(a);
  }

  /** The stored schedules after `lastRunAt` is set to `at` on every row whose id is in `ids`. */
  function StampRuns(ss: seq<ReportSchedule>, ids: set<string>, at: int): (r: seq<ReportSchedule>)
    ensures |r| == |ss|
    ensures forall k :: 0 <= k < |ss| ==> r[k] == if ss[k].id in ids then ss[k].(lastRunAt := Some(at)) else ss[k]
  {
    seq(|ss|, k requires 0 <= k < |ss| => if ss[k].id in ids then ss[k].(lastRunAt := Some(at)) else ss[k])
  }

  /** Stamping two sets of schedules one after the other stamps their union. */
  lemma StampRunsCompose(ss: seq<ReportSchedule>, a: set<string>, b: set<string>, at: int)
    ensures StampRuns(StampRuns(ss, a, at), b, at) == StampRuns(ss, a + b, at)
  {
  }

  /**
   * `sendEmails`: for each schedule, try every recipient in turn, recording success or the
   * failure of that one send and going on, then stamp the schedule's `lastRunAt`. Every
   * recipient gets exactly one attempt and one result, in schedule-then-recipient order, and
   * every schedule of the batch is stamped whether or not its sends failed.
   */
  method SendEmails(db: Db, batch: seq<ReportSchedule>, start: nat, sent: (nat, string) -> bool, runAt: int)
    returns (results: seq<EmailResult>)
    modifies db`schedules
    ensures results == Deliveries(Recipients(batch), start, sent)
    ensures db.schedules == StampRuns(old(db.schedules), ScheduleIds(batch), runAt)
  {
    results := [];
    var i := 0;
    while i < |batch|
      invariant 0 <= i <= |batch|
      invariant results == Deliveries(Recipients(batch[..i]), start, sent)
      invariant db.schedules == StampRuns(old(db.schedules), ScheduleIds(batch[..i]), runAt)
    {
      var schedule := batch[i];
      var done := Recipients(batch[..i]);
      var j := 0;
      while j < |schedule.recipients|
        invariant 0 <= j <= |schedule.recipients|
        invariant results == Deliveries(done + schedule.recipients[..j], start, sent)
        invariant db.schedules == StampRuns(old(db.schedules), ScheduleIds(batch[..i]), runAt)
      {
        var recipient := schedule.recipients[j];
        var ok := sent(start + |results|, recipient);
        assert done + schedule.recipients[..j + 1] == (done + schedule.recipients[..j]) + [recipient];
        DeliveriesSnoc(done + schedule.recipients[..j], recipient, start, sent);
        results := results + [EmailResult(recipient, ok)];
        j := j + 1;
      }
      assert batch[..i + 1][..i] == batch[..i];
      assert schedule.recipients[..j] == schedule.recipients;
      StampRunsCompose(old(db.schedules), ScheduleIds(batch[..i]), {schedule.id}, runAt);
      ScheduleIdsSnoc(batch, i);
      db.schedules := StampRuns(db.schedules, {schedule.id}, runAt);
      i := i + 1;
    }
    assert batch[..i] == batch;
  }

  /**
   * The activity-log entry of a report run: action "generated" on entity "report" with id
   * `<type>-report`, attributed to the owner of the first schedule; none for an empty batch.
   */
  function ReportLog(batch: seq<ReportSchedule>, reportType: string, metadata: LogMetadata): (r: seq<ActivityLog>)
    ensures |r| <= 1
    ensures r == [] <==> batch == []
    ensures r != [] ==> r[0].action == "generated" && r[0].entityType == "report" && r[0].userId == batch[0].userId
  {
    if batch == [] then []
    else [ActivityLog("generated", "report", reportType + "-report", batch[0].userId, metadata)]
  }

  /** `logActivity`: appends the run's entry, or nothing when there are no schedules. */
  method LogActivity(db: Db, batch: seq<ReportSchedule>, reportType: string, metadata: LogMetadata)
    modifies db`logs
    ensures db.logs == old(db.logs) + ReportLog(batch, reportType, metadata)
  {
    if |batch| == 0 {
      return;
    }
    db.logs := db.logs + [ActivityLog("generated", "report", reportType + "-report", batch[0].userId, metadata)];
  }
}
