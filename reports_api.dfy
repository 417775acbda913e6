/**
 * The report-schedule routes: the list of every schedule, newest first, and creation of a
 * schedule owned by the caller together with its activity-log entry.
 */
module ReportsApi {
  import opened Common
  import opened Domain
  import opened Store
  import opened Validation
  import opened Http
  import CronRoutes

  // ---------------------------------------------------------------- reportScheduleSchema

  /** The fields `reportScheduleSchema` yields. */
  datatype ScheduleData = ScheduleData(name: string, frequency: ReportFrequency, recipients: seq<string>, isActive: bool)

  const NameRequired := "Rapor adı gereklidir"
  const RecipientInvalid := "Geçerli email adresi giriniz"
  const RecipientsRequired := "En az bir alıcı gereklidir"

  /** One recipient passes `z.string().email(…)`. */
  predicate RecipientOk(item: Json, isEmail: string -> bool) {
    item.JString? && isEmail(item.s)
  }

  /** The issue of a recipient that fails: a non-string has the wrong type, a string is not an email. */
  function RecipientIssue(item: Json): Message {
    if item.JString? then Given(RecipientInvalid) else Default(InvalidType)
  }

  /**
   * The elements of `z.array(z.string().email(…))`: every element must be an email string,
   * and the first element that is not gives the issue.
   */
  function ParseRecipients(items: seq<Json>, isEmail: string -> bool): (r: Checked<seq<string>>)
    ensures r.Pass? <==> forall i :: 0 <= i < |items| ==> RecipientOk(items[i], isEmail)
    ensures r.Pass? ==> |r.value| == |items| && forall i :: 0 <= i < |items| ==> r.value[i] == items[i].s
    ensures r.Reject? ==>
      exists k :: && 0 <= k < |items| && !RecipientOk(items[k], isEmail)
                  && (forall i :: 0 <= i < k ==> RecipientOk(items[i], isEmail))
                  && r.message == RecipientIssue(items[k])
  {
    if items == [] then Pass([])
    else if !RecipientOk(items[0], isEmail) then Reject(RecipientIssue(items[0]))
    else
      var rest := ParseRecipients(items[1..], isEmail);
      if rest.Reject? then
        ghost var k :| 0 <= k < |items[1..]| && !RecipientOk(items[1..][k], isEmail)
          && (forall i :: 0 <= i < k ==> RecipientOk(items[1..][i], isEmail))
          && rest.message == RecipientIssue(items[1..][k]);
        assert !RecipientOk(items[k + 1], isEmail);
        Reject(rest.message)
      else
        assert forall i :: 0 <= i < |items| - 1 ==> items[1..][i] == items[i + 1];
        Pass([items[0].s] + rest.value)
  }

  /** The `recipients` key: an array of email strings with at least one element. */
  function RecipientList(v: Option<Json>, isEmail: string -> bool): (r: Checked<seq<string>>)
    ensures r.Pass? <==>
      && v.Some? && v.value.JArray? && |v.value.items| >= 1
      && forall i :: 0 <= i < |v.value.items| ==> RecipientOk(v.value.items[i], isEmail)
    ensures r.Pass? ==> |r.value| == |v.value.items| && forall i :: 0 <= i < |r.value| ==> r.value[i] == v.value.items[i].s
    ensures v.Some? && v.value.JArray? && v.value.items == [] ==> r == Reject(Given(RecipientsRequired))
  {
    if v.None? || !v.value.JArray? then Reject(TypeIssue(v))
    else if |v.value.items| < 1 then Reject(Given(RecipientsRequired))
    else ParseRecipients(v.value.items, isEmail)
  }

  /** `z.boolean().optional().default(true)`: an absent value is true. */
  function ActiveFlag(v: Option<Json>): (r: Checked<bool>)
    ensures r.Pass? <==> v.None? || v.value.JBool?
    ensures r.Pass? ==> r.value == (v.None? || v.value.b)
  {
    if v.None? then Pass(true)
    else if v.value.JBool? then Pass(v.value.b)
    else Reject(Default(InvalidType))
  }

  /** What `reportScheduleSchema` accepts. */
  predicate ScheduleBodyValid(body: Json, isEmail: string -> bool) {
    && body.JObject?
    && IsText(Get(body, "name")) && |TextOf(Get(body, "name"))| >= 1
    && IsText(Get(body, "frequency")) && ParseFrequency(TextOf(Get(body, "frequency"))).Some?
    && RecipientList(Get(body, "recipients"), isEmail).Pass?
    && ActiveFlag(Get(body, "isActive")).Pass?
  }

  /**
   * `reportScheduleSchema`: a non-empty name, a frequency among DAILY, WEEKLY and MONTHLY,
   * at least one recipient and every recipient an email, and an optional flag that
   * defaults to true. The first failing key, in that order, gives the message.
   */
  function ParseSchedule(body: Json, isEmail: string -> bool): (r: Checked<ScheduleData>)
    ensures r.Pass? <==> ScheduleBodyValid(body, isEmail)
    ensures r.Pass? ==>
      && r.value.name == TextOf(Get(body, "name")) && r.value.name != ""
      && FrequencyName(r.value.frequency) == TextOf(Get(body, "frequency"))
      && r.value.recipients == RecipientList(Get(body, "recipients"), isEmail).value
      && |r.value.recipients| >= 1
      && r.value.isActive == (Get(body, "isActive").None? || Get(body, "isActive").value.b)
    ensures body.JObject? && IsText(Get(body, "name")) && TextOf(Get(body, "name")) == ""
            ==> r == Reject(Given(NameRequired))
    ensures body.JObject? && IsText(Get(body, "name")) && |TextOf(Get(body, "name"))| >= 1
            && IsText(Get(body, "frequency")) && ParseFrequency(TextOf(Get(body, "frequency"))).Some?
            && Get(body, "recipients") == Some(JArray([]))
            ==> r == Reject(Given(RecipientsRequired))
  {
    if !body.JObject? then Reject(TypeIssue(Some(body)))
    else
      var name := TextAtLeast(Get(body, "name"), 1, Given(NameRequired));
      var frequency := EnumText(Get(body, "frequency"), ParseFrequency, None);
      var recipients := RecipientList(Get(body, "recipients"), isEmail);
      var isActive := ActiveFlag(Get(body, "isActive"));
      if name.Reject? then Reject(name.message)
      else if frequency.Reject? then Reject(frequency.message)
      else if recipients.Reject? then Reject(recipients.message)
      else if isActive.Reject? then Reject(isActive.message)
      else
        FrequencyNameOf(TextOf(Get(body, "frequency")));
        Pass(ScheduleData(name.value, frequency.value, recipients.value, isActive.value))
  }

  /** `z.enum` hands back the very name it was given. */
  lemma FrequencyNameOf(s: string)
    requires ParseFrequency(s).Some?
    ensures FrequencyName(ParseFrequency(s).value) == s
  {
  }

  // ---------------------------------------------------------------- GET /api/reports

  /** `GET /api/reports`: 401 without a session, otherwise every schedule, newest first. */
  function ListSchedules(schedules: seq<ReportSchedule>, session: Option<Session>): (r: Response<seq<ReportSchedule>>)
    ensures session.None? <==> r == Failure(401, Given(Unauthorized))
    ensures r.Success? ==>
      && r.status == 200 && |r.body| == |schedules|
      && forall i :: 0 <= i < |schedules| ==> r.body[i] == schedules[|schedules| - 1 - i]
  {
    if session.None? then Failure(401, Given(Unauthorized)) else Success(200, Reversed(schedules))
  }

  // ---------------------------------------------------------------- POST /api/reports

  /** The activity-log entry of a created schedule. */
  function ScheduleLog(s: ReportSchedule, userId: string): ActivityLog {
    ActivityLog("created", "report_schedule", s.id, userId, ScheduleCreated(s.name, s.frequency))
  }

  /**
   * `POST /api/reports`: 401 without a session; 400 with the first issue's message for a
   * body the schema refuses, creating nothing. Otherwise one schedule owned by the caller,
   * never run yet, and one "created" log entry for it attributed to the caller; 201 with
   * the schedule.
   */
  method CreateSchedule(db: Db, session: Option<Session>, body: Json, isEmail: string -> bool, id: string)
    returns (resp: Response<ReportSchedule>)
    modifies db`schedules, db`logs
    ensures session.None? ==> resp == Failure(401, Given(Unauthorized))
    ensures session.Some? && ParseSchedule(body, isEmail).Reject? ==>
      resp == Failure(400, ParseSchedule(body, isEmail).message)
    ensures resp.Failure? ==> db.schedules == old(db.schedules) && db.logs == old(db.logs)
    ensures session.Some? && ParseSchedule(body, isEmail).Pass? ==>
      var data := ParseSchedule(body, isEmail).value;
      var s := ReportSchedule(id, data.name, data.frequency, data.recipients, data.isActive, session.value.userId, None);
      && resp == Success(201, s)
      && db.schedules == old(db.schedules) + [s]
      && db.logs == old(db.logs) + [ScheduleLog(s, session.value.userId)]
  {
    if session.None? {
      return Failure(401, Given(Unauthorized));
    }
    var parsed := ParseSchedule(body, isEmail);
    if parsed.Reject? {
      return Failure(400, parsed.message);
    }
    var data := parsed.value;
    var s := ReportSchedule(id, data.name, data.frequency, data.recipients, data.isActive, session.value.userId, None);
    db.schedules := db.schedules + [s];
    db.logs := db.logs + [ScheduleLog(s, session.value.userId)];
    resp := Success(201, s);
  }

  /** A schedule just created heads the list. */
  lemma CreatedListedFirst(schedules: seq<ReportSchedule>, s: ReportSchedule, session: Session)
    ensures ListSchedules(schedules + [s], Some(session)).body[0] == s
  {
  }

  /**
   * A schedule created without an `isActive` flag is active, so it joins the batch of its
   * frequency the next time the cron runs, after the ones created before it.
   */
  lemma {:induction false} CreatedJoinsCronBatch(schedules: seq<ReportSchedule>, body: Json, isEmail: string -> bool,
                                                 id: string, userId: string)
    requires ParseSchedule(body, isEmail).Pass? && Get(body, "isActive").None?
    ensures var data := ParseSchedule(body, isEmail).value;
      var s := ReportSchedule(id, data.name, data.frequency, data.recipients, data.isActive, userId, None);
      CronRoutes.ActiveOf(schedules + [s], s.frequency) == CronRoutes.ActiveOf(schedules, s.frequency) + [s]
  {
    var data := ParseSchedule(body, isEmail).value;
    var s := ReportSchedule(id, data.name, data.frequency, data.recipients, data.isActive, userId, None);
    FilterSnoc(schedules, s, (x: ReportSchedule) => x.isActive && x.frequency == s.frequency);
  }
}
