/** The task and account records the client builds from response data: a shape
    check, then a copy of the checked fields, or an error value. */
module Models {
  import opened Json

  /** What `fromData` returns: an error, or the record. Never both, never a part. */
  datatype Decoded<T> = Error | Model(model: T)

  // ---------------------------------------------------------------------------
  // TaskModel. Timestamps are kept as the strings that were accepted: turning
  // them into dates is not part of this model, and `dateParses` stands for the
  // date parser's "not NaN" verdict.
  // ---------------------------------------------------------------------------

  datatype TaskModel = TaskModel(taskId: real, title: string, description: string, isCompleted: bool,
                                 createdAt: string, updatedAt: string)

  predicate TaskIsValidData(data: Json, dateParses: string -> bool)
  {
    && IsObject(data)
    && IsNumber(Member(data, "taskId"))
    && IsString(Member(data, "title"))
    && IsString(Member(data, "description"))
    && IsBoolean(Member(data, "isCompleted"))
    && IsString(Member(data, "createdAt")) && dateParses(Member(data, "createdAt").value.s)
    && IsString(Member(data, "updatedAt")) && dateParses(Member(data, "updatedAt").value.s)
  }

  /** The JSON form the server sends for a task. */
  function TaskToData(m: TaskModel): Json
  {
    Object(map["taskId" := Number(m.taskId), "title" := Str(m.title), "description" := Str(m.description),
               "isCompleted" := Bool(m.isCompleted), "createdAt" := Str(m.createdAt),
               "updatedAt" := Str(m.updatedAt)])
  }

  function TaskFromData(data: Json, dateParses: string -> bool): (r: Decoded<TaskModel>)
    ensures r.Model? <==> TaskIsValidData(data, dateParses)
    ensures r.Model? ==>
      && Member(data, "taskId") == Some(Number(r.model.taskId))
      && Member(data, "title") == Some(Str(r.model.title))
      && Member(data, "description") == Some(Str(r.model.description))
      && Member(data, "isCompleted") == Some(Bool(r.model.isCompleted))
      && Member(data, "createdAt") == Some(Str(r.model.createdAt)) && dateParses(r.model.createdAt)
      && Member(data, "updatedAt") == Some(Str(r.model.updatedAt)) && dateParses(r.model.updatedAt)
  {
    if !TaskIsValidData(data, dateParses) then Error
    else
      Model(TaskModel(Member(data, "taskId").value.n, Member(data, "title").value.s,
                      Member(data, "description").value.s, Member(data, "isCompleted").value.b,
                      Member(data, "createdAt").value.s, Member(data, "updatedAt").value.s))
  }

  /** Every task whose timestamps parse survives the trip through JSON, whatever
      its id (there is no range check); one whose timestamp does not is an error. */
  lemma TaskRoundTrip(m: TaskModel, dateParses: string -> bool)
    ensures TaskFromData(TaskToData(m), dateParses)
      == (if dateParses(m.createdAt) && dateParses(m.updatedAt) then Model(m) else Error)
  {
    var v := TaskToData(m);
    assert Member(v, "createdAt") == Some(Str(m.createdAt));
    assert Member(v, "updatedAt") == Some(Str(m.updatedAt));
  }

  /** A timestamp that is not a string is rejected before the date parser sees it. */
  lemma TaskNeedsStringTimestamps(data: Json, dateParses: string -> bool)
    requires Member(data, "createdAt").Some? && !Member(data, "createdAt").value.Str?
    ensures TaskFromData(data, dateParses) == Error
  {
  }

  // ---------------------------------------------------------------------------
  // AccountModel.
  // ---------------------------------------------------------------------------

  datatype AccountModel = AccountModel(accountId: real, username: string)

  predicate AccountIsValidData(data: Json)
  {
    IsObject(data) && IsNumber(Member(data, "accountId")) && IsString(Member(data, "username"))
  }

  function AccountToData(m: AccountModel): Json
  {
    Object(map["accountId" := Number(m.accountId), "username" := Str(m.username)])
  }

  function AccountFromData(data: Json): (r: Decoded<AccountModel>)
    ensures r.Model? <==> AccountIsValidData(data)
    ensures r.Model? ==>
      && Member(data, "accountId") == Some(Number(r.model.accountId))
      && Member(data, "username") == Some(Str(r.model.username))
  {
    if !AccountIsValidData(data) then Error
    else Model(AccountModel(Member(data, "accountId").value.n, Member(data, "username").value.s))
  }

  lemma AccountRoundTrip(m: AccountModel)
    ensures AccountFromData(AccountToData(m)) == Model(m)
  {
  }

  /** Non-objects, `null` and arrays are errors. */
  lemma ModelsRejectNonObjects(data: Json, dateParses: string -> bool)
    requires !data.Object?
    ensures AccountFromData(data) == Error && TaskFromData(data, dateParses) == Error
  {
  }
}
