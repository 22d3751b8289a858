/** The application's error type and the shape in which it crosses to the
    front end: a category, the user-facing message and, depending on the
    category, the offending field or the missing resource. Developer
    details and underlying causes stay on the back end. */
module AppErrors {
  import opened Base

  /** Categories the front end can branch on. */
  datatype UserMessageKind =
    | Database | Validation | Io | NotFound | Network | Authentication | Permission
    | ExternalService | IdGeneration | TimeUtils | Unexpected

  /** Failures reported by the storage engine, by constraint or statement. */
  datatype DbErr =
    | UniqueViolation(table: string, column: string)
    | ForeignKeyViolation(table: string)
    | NoSuchTable(table: string)
    | TableExists(table: string)

  /** SQLite's wording of each failure (what `details` records). */
  function DbErrText(err: DbErr): string {
    match err
    case UniqueViolation(t, c) => "UNIQUE constraint failed: " + t + "." + c
    case ForeignKeyViolation(_) => "FOREIGN KEY constraint failed"
    case NoSuchTable(t) => "no such table: " + t
    case TableExists(t) => "table " + t + " already exists"
  }

  /** Errors of the other libraries, carried by their display text. */
  datatype UuidError = UuidError(text: string)
  datatype ChronoParseError = ChronoParseError(text: string)
  datatype JsonError = JsonError(text: string)
  datatype IoError = IoError(text: string)

  /** The boxed underlying cause some variants keep. */
  datatype ErrorSource =
    | DbSource(db: DbErr)
    | UuidSource(uuid: UuidError)
    | ChronoSource(chrono: ChronoParseError)
    | JsonSource(json: JsonError)

  datatype AppError =
    | Database(userMessage: string, details: string, source: Option<ErrorSource>)
    | Validation(userMessage: string, field: string, message: string)
    | Io(userMessage: string, details: string, ioSource: IoError)
    | NotFound(userMessage: string, resourceType: string, resourceId: string, details: string)
    | IdGeneration(userMessage: string, details: string, source: Option<ErrorSource>)
    | TimeUtils(userMessage: string, details: string, source: Option<ErrorSource>)
    | ExternalService(userMessage: string, serviceName: string, details: string, source: Option<ErrorSource>)
    | Unexpected(userMessage: string, details: string, source: Option<ErrorSource>)

  /** What is serialised: `None` fields are skipped entirely. */
  datatype SerializedError = SerializedError(
    kind: UserMessageKind,
    message: string,
    field: Option<string>,
    resourceType: Option<string>,
    resourceId: Option<string>)

  /** The `Serialize` implementation: every variant maps to its own
      category and its user message; only `Validation` adds its field and
      only `NotFound` adds the resource type and id. */
  function Serialize(e: AppError): (w: SerializedError)
    ensures w.message == e.userMessage
    ensures w.field.Some? <==> e.Validation?
    ensures e.Validation? ==> w.field == Some(e.field)
    ensures w.resourceType.Some? <==> e.NotFound?
    ensures w.resourceId.Some? <==> e.NotFound?
    ensures e.NotFound? ==> w.resourceType == Some(e.resourceType) && w.resourceId == Some(e.resourceId)
    ensures w.kind !in {UserMessageKind.Network, UserMessageKind.Authentication, UserMessageKind.Permission}
  {
    match e
    case Database(m, _, _) => SerializedError(UserMessageKind.Database, m, None, None, None)
    case Validation(m, f, _) => SerializedError(UserMessageKind.Validation, m, Some(f), None, None)
    case Io(m, _, _) => SerializedError(UserMessageKind.Io, m, None, None, None)
    case NotFound(m, t, id, _) => SerializedError(UserMessageKind.NotFound, m, None, Some(t), Some(id))
    case IdGeneration(m, _, _) => SerializedError(UserMessageKind.IdGeneration, m, None, None, None)
    case TimeUtils(m, _, _) => SerializedError(UserMessageKind.TimeUtils, m, None, None, None)
    case ExternalService(m, _, _, _) => SerializedError(UserMessageKind.ExternalService, m, None, None, None)
    case Unexpected(m, _, _) => SerializedError(UserMessageKind.Unexpected, m, None, None, None)
  }

  /** The category names the variant, in both directions. */
  lemma KindNamesVariant(e: AppError)
    ensures Serialize(e).kind == UserMessageKind.Database <==> e.Database?
    ensures Serialize(e).kind == UserMessageKind.Validation <==> e.Validation?
    ensures Serialize(e).kind == UserMessageKind.Io <==> e.Io?
    ensures Serialize(e).kind == UserMessageKind.NotFound <==> e.NotFound?
    ensures Serialize(e).kind == UserMessageKind.IdGeneration <==> e.IdGeneration?
    ensures Serialize(e).kind == UserMessageKind.TimeUtils <==> e.TimeUtils?
    ensures Serialize(e).kind == UserMessageKind.ExternalService <==> e.ExternalService?
    ensures Serialize(e).kind == UserMessageKind.Unexpected <==> e.Unexpected?
  {
  }

  /** The same error with every back-end-only part blanked: details, the
      developer message, the service name and the underlying cause. */
  function Redact(e: AppError): (r: AppError)
    ensures r.userMessage == e.userMessage
  {
    match e
    case Database(m, _, _) => AppError.Database(m, "", None)
    case Validation(m, f, _) => AppError.Validation(m, f, "")
    case Io(m, _, _) => AppError.Io(m, "", IoError(""))
    case NotFound(m, t, id, _) => AppError.NotFound(m, t, id, "")
    case IdGeneration(m, _, _) => AppError.IdGeneration(m, "", None)
    case TimeUtils(m, _, _) => AppError.TimeUtils(m, "", None)
    case ExternalService(m, _, _, _) => AppError.ExternalService(m, "", "", None)
    case Unexpected(m, _, _) => AppError.Unexpected(m, "", None)
  }

  /** Two errors that differ only in back-end-only parts serialise
      identically: those parts never reach the front end. */
  lemma InternalsNeverCross(e1: AppError, e2: AppError)
    requires Redact(e1) == Redact(e2)
    ensures Serialize(e1) == Serialize(e2)
  {
  }

  /** The JSON object keys that serialisation emits, in field order. */
  function SerializedKeys(w: SerializedError): (keys: seq<string>)
    ensures |keys| >= 2 && keys[..2] == ["kind", "message"]
  {
    ["kind", "message"]
    + (if w.field.Some? then ["field"] else [])
    + (if w.resourceType.Some? then ["resource_type"] else [])
    + (if w.resourceId.Some? then ["resource_id"] else [])
  }

  /** Which keys appear for which variant. */
  lemma SerializedKeysByVariant(e: AppError)
    ensures "field" in SerializedKeys(Serialize(e)) <==> e.Validation?
    ensures "resource_type" in SerializedKeys(Serialize(e)) <==> e.NotFound?
    ensures "resource_id" in SerializedKeys(Serialize(e)) <==> e.NotFound?
    ensures "details" !in SerializedKeys(Serialize(e)) && "source" !in SerializedKeys(Serialize(e))
  {
  }

  const DbUserMessage: string := "データベース処理中にエラーが発生しました。"
  const UuidUserMessage: string := "IDの生成に失敗しました。"
  const ChronoUserMessage: string := "日時の解析に失敗しました。入力形式を確認してください。"
  const JsonUserMessage: string := "データの処理中に問題が発生しました。"
  const DefaultValidationMessage: string := "入力内容が正しくありません。"
  const DefaultUnexpectedMessage: string := "予期せぬエラーが発生しました。しばらくしてから再度お試しください。"

  /** `From<sea_orm::DbErr>`. */
  function FromDbErr(err: DbErr): (e: AppError)
    ensures Serialize(e) == SerializedError(UserMessageKind.Database, DbUserMessage, None, None, None)
    ensures e.source == Some(DbSource(err))
  {
    AppError.Database(DbUserMessage, DbErrText(err), Some(DbSource(err)))
  }

  /** `From<uuid::Error>`. */
  function FromUuidError(err: UuidError): (e: AppError)
    ensures Serialize(e) == SerializedError(UserMessageKind.IdGeneration, UuidUserMessage, None, None, None)
    ensures e.source == Some(UuidSource(err))
  {
    AppError.IdGeneration(UuidUserMessage, err.text, Some(UuidSource(err)))
  }

  /** `From<chrono::ParseError>`. */
  function FromChronoError(err: ChronoParseError): (e: AppError)
    ensures Serialize(e) == SerializedError(UserMessageKind.TimeUtils, ChronoUserMessage, None, None, None)
    ensures e.source == Some(ChronoSource(err))
  {
    AppError.TimeUtils(ChronoUserMessage, err.text, Some(ChronoSource(err)))
  }

  /** `From<serde_json::Error>`: JSON failures are reported as unexpected. */
  function FromJsonError(err: JsonError): (e: AppError)
    ensures Serialize(e) == SerializedError(UserMessageKind.Unexpected, JsonUserMessage, None, None, None)
    ensures e.source == Some(JsonSource(err))
  {
    AppError.Unexpected(JsonUserMessage, "JSON processing error: " + err.text, Some(JsonSource(err)))
  }

  /** `AppError::validation`: a given user message wins over the default. */
  function NewValidation(field: string, message: string, userMessage: Option<string>): (e: AppError)
    ensures e.Validation? && e.field == field && e.message == message
    ensures userMessage.None? ==> e.userMessage == DefaultValidationMessage
    ensures userMessage.Some? ==> e.userMessage == userMessage.value
  {
    AppError.Validation(if userMessage.Some? then userMessage.value else DefaultValidationMessage, field, message)
  }

  /** `AppError::not_found`: the default message names the resource type. */
  function NewNotFound(resourceType: string, resourceId: string, details: string, userMessage: Option<string>): (e: AppError)
    ensures e.NotFound? && e.resourceType == resourceType && e.resourceId == resourceId && e.details == details
    ensures userMessage.None? ==> e.userMessage == "指定された" + resourceType + "が見つかりませんでした。"
    ensures userMessage.Some? ==> e.userMessage == userMessage.value
  {
    var m := if userMessage.Some? then userMessage.value else "指定された" + resourceType + "が見つかりませんでした。";
    AppError.NotFound(m, resourceType, resourceId, details)
  }

  /** `AppError::unexpected`: never records an underlying cause. */
  function NewUnexpected(details: string, userMessage: Option<string>): (e: AppError)
    ensures e.Unexpected? && e.details == details && e.source == None
    ensures userMessage.None? ==> e.userMessage == DefaultUnexpectedMessage
    ensures userMessage.Some? ==> e.userMessage == userMessage.value
  {
    AppError.Unexpected(if userMessage.Some? then userMessage.value else DefaultUnexpectedMessage, details, None)
  }
}
