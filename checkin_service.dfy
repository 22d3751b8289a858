/** The daily check-in service: validating a payload, recording a check-in
    and reading the check-in of a date, over the in-memory store. */
module CheckinService {
  import opened Base
  import opened Text
  import opened Dates
  import opened JsonList
  import opened AppErrors
  import opened Storage

  /** What the client sends to record a check-in. */
  datatype Payload = Payload(
    date: string,
    moodLevel: int,
    moodText: Option<string>,
    physicalStateTags: Option<seq<string>>,
    potentialTodos: Option<seq<string>>)

  /** What the service hands back for a stored check-in. */
  datatype Response = Response(
    uuid: string,
    date: string,
    moodLevel: int,
    moodText: Option<string>,
    physicalStateTags: Option<seq<string>>,
    potentialTodos: Option<seq<string>>,
    createdAt: Timestamp,
    updatedAt: Timestamp)

  // Limits; text lengths are UTF-8 byte counts.
  const MaxMoodTextBytes := 500
  const MaxTags := 10
  const MaxTagBytes := 20
  const MaxTodos := 3
  const MaxTodoBytes := 100

  const MoodLevelError := NewValidation("mood_level", "Mood level must be between 1 and 5",
    Some("気分レベルは1から5の間で選択してください。"))
  const MoodTextError := NewValidation("mood_text", "Mood text must be 500 characters or less",
    Some("気分メモは500文字以内で入力してください。"))
  const TagCountError := NewValidation("physical_state_tags", "Maximum 10 tags allowed",
    Some("体の状態タグは最大10個まで選択可能です。"))
  const TagLengthError := NewValidation("physical_state_tags", "Each tag must be 20 characters or less",
    Some("各タグは20文字以内で入力してください。"))
  const TodoCountError := NewValidation("potential_todos", "Maximum 3 todos allowed",
    Some("「やらなきゃ」は最大3つまで入力可能です。"))
  const TodoLengthError := NewValidation("potential_todos", "Each todo must be 100 characters or less",
    Some("各項目は100文字以内で入力してください。"))
  const DateFormatError := NewValidation("date", "Invalid date format", None)
  const FutureDateError := NewValidation("date", "Cannot record checkin for future dates",
    Some("未来の日付は記録できません。"))
  const DuplicateError := NewValidation("date", "Daily checkin already exists for this date",
    Some("この日のチェックインは既に記録済みです。"))

  /** The payload fields, in the order the rules are checked. */
  const CheckedFields: seq<string> := ["mood_level", "mood_text", "physical_state_tags", "potential_todos", "date"]

  predicate AllWithin(xs: seq<string>, limit: nat) {
    forall i :: 0 <= i < |xs| ==> Utf8Len(xs[i]) <= limit
  }

  /** The rule for one payload field, stated on its own. */
  predicate RuleHolds(p: Payload, today: Date, field: string) {
    if field == "mood_level" then 1 <= p.moodLevel <= 5
    else if field == "mood_text" then
      p.moodText.Some? ==> Utf8Len(p.moodText.value) <= MaxMoodTextBytes
    else if field == "physical_state_tags" then
      p.physicalStateTags.Some? ==>
        |p.physicalStateTags.value| <= MaxTags && AllWithin(p.physicalStateTags.value, MaxTagBytes)
    else if field == "potential_todos" then
      p.potentialTodos.Some? ==>
        |p.potentialTodos.value| <= MaxTodos && AllWithin(p.potentialTodos.value, MaxTodoBytes)
    else if field == "date" then
      ParseDate(p.date).Some? && !IsAfter(ParseDate(p.date).value, today)
    else true
  }

  /** `validate_payload`: the first broken rule, in field order, decides the
      error; within a list the count is checked before the items. */
  function PayloadCheck(p: Payload, today: Date): (r: Result<(), AppError>)
    ensures r.Err? ==> r.error.Validation? && r.error.field in CheckedFields
  {
    if !(1 <= p.moodLevel <= 5) then Err(MoodLevelError)
    else if p.moodText.Some? && Utf8Len(p.moodText.value) > MaxMoodTextBytes then Err(MoodTextError)
    else if p.physicalStateTags.Some? && |p.physicalStateTags.value| > MaxTags then Err(TagCountError)
    else if p.physicalStateTags.Some? && !AllWithin(p.physicalStateTags.value, MaxTagBytes) then Err(TagLengthError)
    else if p.potentialTodos.Some? && |p.potentialTodos.value| > MaxTodos then Err(TodoCountError)
    else if p.potentialTodos.Some? && !AllWithin(p.potentialTodos.value, MaxTodoBytes) then Err(TodoLengthError)
    else if ParseDate(p.date).None? then Err(DateFormatError)
    else if IsAfter(ParseDate(p.date).value, today) then Err(FutureDateError)
    else Ok(())
  }

  /** A payload passes exactly when every field's rule holds. */
  lemma PayloadCheckAcceptsExactly(p: Payload, today: Date)
    ensures PayloadCheck(p, today).Ok? <==> forall f :: f in CheckedFields ==> RuleHolds(p, today, f)
  {
    if PayloadCheck(p, today).Ok? {
      forall f | f in CheckedFields ensures RuleHolds(p, today, f) {
      }
    } else {
      var e := PayloadCheck(p, today).error;
      assert e.field in CheckedFields && !RuleHolds(p, today, e.field);
    }
  }

  /** A refusal names the first field, in checking order, whose rule is
      broken: every earlier field's rule holds. */
  lemma PayloadCheckReportsFirstBrokenRule(p: Payload, today: Date)
    requires PayloadCheck(p, today).Err?
    ensures exists j ::
      && 0 <= j < |CheckedFields|
      && CheckedFields[j] == PayloadCheck(p, today).error.field
      && !RuleHolds(p, today, CheckedFields[j])
      && forall k :: 0 <= k < j ==> RuleHolds(p, today, CheckedFields[k])
  {
    var j := if !RuleHolds(p, today, "mood_level") then 0
      else if !RuleHolds(p, today, "mood_text") then 1
      else if !RuleHolds(p, today, "physical_state_tags") then 2
      else if !RuleHolds(p, today, "potential_todos") then 3
      else 4;
    assert CheckedFields[j] == PayloadCheck(p, today).error.field;
    assert forall k :: 0 <= k < j ==> RuleHolds(p, today, CheckedFields[k]);
  }

  /** The rules of the first `n` fields, in checking order, hold. */
  predicate EarlierRulesHold(p: Payload, today: Date, n: nat) {
    forall k :: 0 <= k < n && k < |CheckedFields| ==> RuleHolds(p, today, CheckedFields[k])
  }

  /** The exact refusals for the mood fields: the level is checked first. */
  lemma MoodErrors(p: Payload, today: Date)
    ensures !(1 <= p.moodLevel <= 5) ==> PayloadCheck(p, today) == Err(MoodLevelError)
    ensures EarlierRulesHold(p, today, 1) && p.moodText.Some? && Utf8Len(p.moodText.value) > MaxMoodTextBytes ==>
      PayloadCheck(p, today) == Err(MoodTextError)
  {
    if EarlierRulesHold(p, today, 1) {
      assert RuleHolds(p, today, CheckedFields[0]);
    }
  }

  /** Once the mood fields pass, too many tags give the count error even
      when some tag is also too long; a tag too long gives the length
      error only when the count is within the limit. */
  lemma TagCountCheckedBeforeLength(p: Payload, today: Date)
    requires EarlierRulesHold(p, today, 2) && p.physicalStateTags.Some?
    ensures |p.physicalStateTags.value| > MaxTags ==> PayloadCheck(p, today) == Err(TagCountError)
    ensures |p.physicalStateTags.value| <= MaxTags && !AllWithin(p.physicalStateTags.value, MaxTagBytes) ==>
      PayloadCheck(p, today) == Err(TagLengthError)
  {
    assert RuleHolds(p, today, CheckedFields[0]) && RuleHolds(p, today, CheckedFields[1]);
  }

  /** The same order for the to-do list, once the tags pass too. */
  lemma TodoCountCheckedBeforeLength(p: Payload, today: Date)
    requires EarlierRulesHold(p, today, 3) && p.potentialTodos.Some?
    ensures |p.potentialTodos.value| > MaxTodos ==> PayloadCheck(p, today) == Err(TodoCountError)
    ensures |p.potentialTodos.value| <= MaxTodos && !AllWithin(p.potentialTodos.value, MaxTodoBytes) ==>
      PayloadCheck(p, today) == Err(TodoLengthError)
  {
    assert RuleHolds(p, today, CheckedFields[0]) && RuleHolds(p, today, CheckedFields[1]);
    assert RuleHolds(p, today, CheckedFields[2]);
  }

  /** Once the other fields pass, a date text that does not parse gives
      the format error, and only a parsed date after today gives the
      future-date error. */
  lemma DateFormatCheckedBeforeFuture(p: Payload, today: Date)
    requires EarlierRulesHold(p, today, 4)
    ensures ParseDate(p.date).None? ==> PayloadCheck(p, today) == Err(DateFormatError)
    ensures ParseDate(p.date).Some? && IsAfter(ParseDate(p.date).value, today) ==>
      PayloadCheck(p, today) == Err(FutureDateError)
  {
    assert RuleHolds(p, today, CheckedFields[0]) && RuleHolds(p, today, CheckedFields[1]);
    assert RuleHolds(p, today, CheckedFields[2]) && RuleHolds(p, today, CheckedFields[3]);
  }

  /** Every refusal is a validation error that reaches the client with its
      field named. */
  lemma PayloadRefusalIsValidation(p: Payload, today: Date)
    requires PayloadCheck(p, today).Err?
    ensures Serialize(PayloadCheck(p, today).error).kind == UserMessageKind.Validation
    ensures Serialize(PayloadCheck(p, today).error).field == Some(PayloadCheck(p, today).error.field)
  {
  }

  /** A payload that passes has a date that parses, so the second parse in
      `record_checkin` never fails. */
  lemma AcceptedDateParses(p: Payload, today: Date)
    requires PayloadCheck(p, today).Ok?
    ensures ParseDate(p.date).Some? && !IsAfter(ParseDate(p.date).value, today)
  {
  }

  /** Text limits count UTF-8 bytes, not characters: two hundred 'あ' are
      two hundred characters but six hundred bytes, and are refused. */
  lemma MoodTextLimitCountsBytes(date: string, today: Date)
    ensures var text := seq(200, _ => 'あ');
      |text| == 200 && PayloadCheck(Payload(date, 3, Some(text), None, None), today) == Err(MoodTextError)
  {
    Utf8LenRepeat('あ', 200);
  }

  /** The per-item byte-length loop over a list field: stops at the first
      item longer than `limit`. */
  method AllWithinLimit(xs: seq<string>, limit: nat) returns (ok: bool)
    ensures ok <==> AllWithin(xs, limit)
  {
    for i := 0 to |xs|
      invariant forall j :: 0 <= j < i ==> Utf8Len(xs[j]) <= limit
    {
      if Utf8Len(xs[i]) > limit {
        return false;
      }
    }
    return true;
  }

  /** `validate_payload`, walking the tag and todo lists one item at a time. */
  method ValidatePayload(p: Payload, today: Date) returns (r: Result<(), AppError>)
    ensures r == PayloadCheck(p, today)
  {
    if !(1 <= p.moodLevel <= 5) {
      return Err(MoodLevelError);
    }
    if p.moodText.Some? && Utf8Len(p.moodText.value) > MaxMoodTextBytes {
      return Err(MoodTextError);
    }
    if p.physicalStateTags.Some? {
      var tags := p.physicalStateTags.value;
      if |tags| > MaxTags {
        return Err(TagCountError);
      }
      var within := AllWithinLimit(tags, MaxTagBytes);
      if !within {
        return Err(TagLengthError);
      }
    }
    if p.potentialTodos.Some? {
      var todos := p.potentialTodos.value;
      if |todos| > MaxTodos {
        return Err(TodoCountError);
      }
      var within := AllWithinLimit(todos, MaxTodoBytes);
      if !within {
        return Err(TodoLengthError);
      }
    }
    var date := ParseDate(p.date);
    if date.None? {
      return Err(DateFormatError);
    }
    if IsAfter(date.value, today) {
      return Err(FutureDateError);
    }
    return Ok(());
  }

  /** How an optional list is stored: `""` when absent, JSON otherwise. */
  function EncodeStored(xs: Option<seq<string>>): (s: string)
    ensures s == "" <==> xs.None?
  {
    if xs.None? then "" else EncodeList(xs.value)
  }

  /** How a stored list is read back: `""` is absent, and text that is not
      a JSON list of strings is dropped. */
  function DecodeStored(s: string): Option<seq<string>> {
    if s == "" then None else DecodeList(s)
  }

  lemma StoredListRoundTrip(xs: Option<seq<string>>)
    ensures DecodeStored(EncodeStored(xs)) == xs
  {
    if xs.Some? {
      EncodeDecodeRoundTrip(xs.value);
    }
  }

  /** `From<daily_checkins::Model>`: empty text columns read as absent. */
  function ToResponse(row: CheckinRow): (r: Response)
    requires ValidDate(row.date)
    ensures r.moodText.None? <==> row.moodText == ""
    ensures r.moodText.Some? ==> r.moodText.value == row.moodText
    ensures row.physicalStateTags == "" ==> r.physicalStateTags.None?
    ensures row.potentialTodos == "" ==> r.potentialTodos.None?
    ensures r.uuid == row.uuid && r.moodLevel == row.moodLevel
  {
    Response(
      row.uuid,
      FormatDate(row.date),
      row.moodLevel,
      if row.moodText == "" then None else Some(row.moodText),
      DecodeStored(row.physicalStateTags),
      DecodeStored(row.potentialTodos),
      row.createdAt,
      row.updatedAt)
  }

  /** The row `record_checkin` inserts. The payload's absent mood text is
      stored as `""`, the physical-state text is always `""`, and the
      deletion stamp is set to a second reading of the clock. */
  function NewRow(p: Payload, d: Date, uuid: string, now: Timestamp, deletedStamp: Timestamp): (n: NewCheckin)
    ensures n.date == d && n.createdAt == now && n.updatedAt == now && n.deletedAt == Some(deletedStamp)
    ensures n.physicalStateText == ""
  {
    NewCheckin(uuid, d, p.moodLevel,
      if p.moodText.Some? then p.moodText.value else "",
      EncodeStored(p.physicalStateTags), "", EncodeStored(p.potentialTodos),
      now, now, Some(deletedStamp))
  }

  /** `record_checkin` on the store as a value: the result and the store
      after. `uuid`, `now` and `deletedStamp` are the id generator's and
      the clock's readings. */
  function Recorded(t: Tables, p: Payload, today: Date, uuid: string, now: Timestamp, deletedStamp: Timestamp)
    : (res: (Result<Response, AppError>, Tables))
    ensures res.0.Err? ==> res.1 == t
    ensures PayloadCheck(p, today).Err? ==> res.0 == Err(PayloadCheck(p, today).error)
    ensures res.0.Ok? <==>
      PayloadCheck(p, today).Ok? && ParseDate(p.date).Some? && !HasDate(t.checkins, ParseDate(p.date).value)
  {
    match PayloadCheck(p, today)
    case Err(e) => (Err(e), t)
    case Ok(_) =>
      match ParseDate(p.date)
      case None => (Err(DateFormatError), t)
      case Some(d) =>
        if LiveByDate(t.checkins, d).Some? then
          assert LiveByDate(t.checkins, d).value in t.checkins;
          (Err(DuplicateError), t)
        else
          var (r, t') := CheckinInserted(t, NewRow(p, d, uuid, now, deletedStamp));
          match r
          case Err(dbErr) => (Err(FromDbErr(dbErr)), t')
          case Ok(row) => (Ok(ToResponse(row)), t')
  }

  /** `get_checkin_by_date` on the store as a value. */
  function Lookup(t: Tables, s: string): (r: Result<Option<Response>, AppError>)
    ensures r.Err? <==> ParseDate(s).None?
    ensures r.Err? ==> r.error == DateFormatError
  {
    match ParseDate(s)
    case None => Err(DateFormatError)
    case Some(d) =>
      match LiveByDate(t.checkins, d)
      case None => Ok(None)
      case Some(row) => Ok(Some(ToResponse(row)))
  }

  /** When the date asked for has a live row, the lookup answers with that
      row, and the response spells the date exactly as it was asked. */
  lemma LookupFindsLiveRow(t: Tables, s: string, i: int)
    requires CheckinKeysDistinct(t.checkins)
    requires ParseDate(s).Some? && 0 <= i < |t.checkins| && IsLive(t.checkins[i], ParseDate(s).value)
    ensures Lookup(t, s) == Ok(Some(ToResponse(t.checkins[i])))
    ensures Lookup(t, s).value.value.date == s
  {
    var row := LiveByDate(t.checkins, ParseDate(s).value).value;
    var j :| 0 <= j < |t.checkins| && t.checkins[j] == row;
    assert t.checkins[i].date == t.checkins[j].date;
    ParseThenFormat(s);
  }

  /** A found check-in is the live row of the date asked for. */
  lemma LookupAnswerIsLiveRow(t: Tables, s: string)
    requires Lookup(t, s).Ok? && Lookup(t, s).value.Some?
    ensures Lookup(t, s).value.value.date == s
    ensures exists i ::
      && 0 <= i < |t.checkins|
      && IsLive(t.checkins[i], ParseDate(s).value)
      && Lookup(t, s).value.value == ToResponse(t.checkins[i])
  {
    ParseThenFormat(s);
    var row := LiveByDate(t.checkins, ParseDate(s).value).value;
    var i :| 0 <= i < |t.checkins| && t.checkins[i] == row;
  }

  /** A date with no live row reads as absent, not as an error. */
  lemma LookupAbsent(t: Tables, s: string)
    requires ParseDate(s).Some?
    requires forall i :: 0 <= i < |t.checkins| ==> !IsLive(t.checkins[i], ParseDate(s).value)
    ensures Lookup(t, s) == Ok(None)
  {
  }

  /** A date that already has a live row is refused with the duplicate
      validation error, and nothing is written. */
  lemma RecordRefusesLiveDuplicate(t: Tables, p: Payload, today: Date, uuid: string, now: Timestamp, deletedStamp: Timestamp)
    requires PayloadCheck(p, today).Ok?
    requires exists i :: 0 <= i < |t.checkins| && IsLive(t.checkins[i], ParseDate(p.date).value)
    ensures Recorded(t, p, today, uuid, now, deletedStamp) == (Err(DuplicateError), t)
  {
  }

  /** A valid payload for a date no row has is recorded: one new row,
      appended, holding the payload's values with absent text as `""`. */
  lemma RecordStoresRow(t: Tables, p: Payload, today: Date, uuid: string, now: Timestamp, deletedStamp: Timestamp)
    requires PayloadCheck(p, today).Ok? && ParseDate(p.date).Some?
    requires !HasDate(t.checkins, ParseDate(p.date).value)
    ensures Recorded(t, p, today, uuid, now, deletedStamp).0.Ok?
    ensures var t' := Recorded(t, p, today, uuid, now, deletedStamp).1;
      && |t'.checkins| == |t.checkins| + 1
      && t'.checkins[..|t.checkins|] == t.checkins
      && t'.microTasks == t.microTasks
      && var row := t'.checkins[|t.checkins|];
      && Some(row.date) == ParseDate(p.date)
      && row.id == t.nextCheckinId
      && row.uuid == uuid
      && row.moodLevel == p.moodLevel
      && row.moodText == (if p.moodText.Some? then p.moodText.value else "")
      && DecodeStored(row.physicalStateTags) == p.physicalStateTags
      && DecodeStored(row.potentialTodos) == p.potentialTodos
      && row.physicalStateText == ""
      && row.createdAt == now && row.updatedAt == now
      && row.deletedAt == Some(deletedStamp)
  {
    StoredListRoundTrip(p.physicalStateTags);
    StoredListRoundTrip(p.potentialTodos);
  }

  /** The response to a successful record gives back what was sent: the
      same date text, mood and lists; an empty mood text comes back
      absent. */
  lemma RecordResponseEchoesPayload(t: Tables, p: Payload, today: Date, uuid: string, now: Timestamp, deletedStamp: Timestamp)
    requires Recorded(t, p, today, uuid, now, deletedStamp).0.Ok?
    ensures var r := Recorded(t, p, today, uuid, now, deletedStamp).0.value;
      && r.date == p.date
      && r.uuid == uuid
      && r.moodLevel == p.moodLevel
      && r.moodText == (if p.moodText == Some("") then None else p.moodText)
      && r.physicalStateTags == p.physicalStateTags
      && r.potentialTodos == p.potentialTodos
      && r.createdAt == now && r.updatedAt == now
  {
    ParseThenFormat(p.date);
    StoredListRoundTrip(p.physicalStateTags);
    StoredListRoundTrip(p.potentialTodos);
  }

  /** Because the new row carries a deletion stamp, reading the date back
      right after recording it finds nothing. */
  lemma RecordedCheckinIsNotFound(t: Tables, p: Payload, today: Date, uuid: string, now: Timestamp, deletedStamp: Timestamp)
    requires Recorded(t, p, today, uuid, now, deletedStamp).0.Ok?
    ensures Lookup(Recorded(t, p, today, uuid, now, deletedStamp).1, p.date) == Ok(None)
  {
    var d := ParseDate(p.date).value;
    var t' := Recorded(t, p, today, uuid, now, deletedStamp).1;
    assert LiveByDate(t.checkins, d).None?;
    assert t'.checkins == t.checkins + [t'.checkins[|t.checkins|]];
    forall i | 0 <= i < |t'.checkins| ensures !IsLive(t'.checkins[i], d) {
      if i < |t.checkins| {
        assert t'.checkins[i] == t.checkins[i];
      }
    }
  }

  /** Recording the same date twice: the first row is not live, so the
      duplicate check passes, and the unique `Date` column refuses the
      insert, which the client sees as a database error. */
  lemma SecondRecordIsDatabaseError(t: Tables, p: Payload, q: Payload, today: Date,
                                    uuid1: string, uuid2: string, now1: Timestamp, now2: Timestamp,
                                    stamp1: Timestamp, stamp2: Timestamp)
    requires Recorded(t, p, today, uuid1, now1, stamp1).0.Ok?
    requires PayloadCheck(q, today).Ok? && q.date == p.date
    ensures var t1 := Recorded(t, p, today, uuid1, now1, stamp1).1;
      && Recorded(t1, q, today, uuid2, now2, stamp2)
         == (Err(FromDbErr(UniqueViolation("daily_checkins", "date"))), t1)
      && Serialize(Recorded(t1, q, today, uuid2, now2, stamp2).0.error).kind == UserMessageKind.Database
  {
    var d := ParseDate(p.date).value;
    var t1 := Recorded(t, p, today, uuid1, now1, stamp1).1;
    RecordedCheckinIsNotFound(t, p, today, uuid1, now1, stamp1);
    assert LiveByDate(t1.checkins, d).None?;
    assert t1.checkins[|t1.checkins| - 1].date == d;
    assert HasDate(t1.checkins, d);
  }

  /** A record keeps the store consistent. */
  lemma RecordKeepsConsistent(t: Tables, p: Payload, today: Date, uuid: string, now: Timestamp, deletedStamp: Timestamp)
    requires Consistent(t)
    ensures Consistent(Recorded(t, p, today, uuid, now, deletedStamp).1)
  {
    if PayloadCheck(p, today).Ok? {
      var d := ParseDate(p.date).value;
      InsertCheckinKeepsConsistent(t, NewRow(p, d, uuid, now, deletedStamp));
    }
  }

  /** The service, bound to its store. */
  class DailyCheckinService {
    const db: Store

    constructor (db: Store)
      ensures this.db == db
    {
      this.db := db;
    }

    /** `record_checkin`. */
    method RecordCheckin(p: Payload, today: Date, uuid: string, now: Timestamp, deletedStamp: Timestamp)
      returns (r: Result<Response, AppError>)
      requires db.Valid()
      modifies db
      ensures db.Valid()
      ensures (r, db.State()) == Recorded(old(db.State()), p, today, uuid, now, deletedStamp)
    {
      var checked := ValidatePayload(p, today);
      if checked.Err? {
        return Err(checked.error);
      }
      var date := ParseDate(p.date);
      if date.None? {
        return Err(DateFormatError);
      }
      var existing := db.FindLiveByDate(date.value);
      if existing.Some? {
        return Err(DuplicateError);
      }
      var inserted := db.InsertCheckin(NewRow(p, date.value, uuid, now, deletedStamp));
      if inserted.Err? {
        return Err(FromDbErr(inserted.error));
      }
      return Ok(ToResponse(inserted.value));
    }

    /** `get_checkin_by_date`. */
    method GetCheckinByDate(s: string) returns (r: Result<Option<Response>, AppError>)
      ensures r == Lookup(db.State(), s)
    {
      var date := ParseDate(s);
      if date.None? {
        return Err(DateFormatError);
      }
      var row := db.FindLiveByDate(date.value);
      if row.None? {
        return Ok(None);
      }
      return Ok(Some(ToResponse(row.value)));
    }
  }
}
