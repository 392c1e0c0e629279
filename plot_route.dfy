/** The server's `POST /api/plots/add` handler: the checks on the request
    body, made in a fixed order with the first failure answered by a 400,
    and the defaults filled in for the row that is inserted. */
module PlotRoute {
  import opened Wrappers
  import opened Lists

  /** A value of the parsed JSON body, by its JavaScript kind. An array
      keeps its elements; every other object is `Obj`, which records whether
      the object has an own `toString` key; a field left out of the body is
      `Undefined`. */
  datatype JsValue = Undefined | Null | Bool(b: bool) | Num(n: real) | NaN | Str(s: string)
                   | Arr(elems: seq<JsValue>) | Obj(ownToString: bool)

  /** JavaScript truthiness. */
  predicate Truthy(v: JsValue) {
    match v
    case Undefined => false
    case Null => false
    case Bool(b) => b
    case Num(n) => n != 0.0
    case NaN => false
    case Str(s) => s != ""
    case Arr(_) => true
    case Obj(_) => true
  }

  /** Converting the value to a string or a number does not throw. An own
      `toString` from JSON is never callable, and the object's `valueOf`
      returns the object itself, so neither `String(v)` nor `Number(v)`
      finds a primitive: a TypeError. An array converts through `join`,
      which converts every element that is not `null` or `undefined`. */
  predicate Converts(v: JsValue) {
    match v
    case Arr(elems) => forall i :: 0 <= i < |elems| ==> Converts(elems[i])
    case Obj(ownToString) => !ownToString
    case _ => true
  }

  datatype PlotRequest = PlotRequest(
    userId: JsValue, name: JsValue, location: JsValue,
    size: JsValue, moisture: JsValue, treeHealth: JsValue, fertilizer: JsValue,
    status: JsValue, updated: JsValue, color: JsValue)

  /** The row handed to the insert. A number is `None` where JavaScript
      would hold `NaN`. */
  datatype PlotRow = PlotRow(
    userId: Option<real>, name: JsValue, location: JsValue,
    size: real, moisture: real, treeHealth: real, fertilizer: real,
    status: string, updated: JsValue, color: JsValue)

  /** What the handler answers before the database is reached: a 400 with
      its message, a 500 from an exception thrown while checking, or the
      row to insert. */
  datatype Outcome = BadRequest(message: string) | ServerError | Insert(row: PlotRow)

  /** What the handler takes from its runtime: `Number(v)` (`None` for
      `NaN`), whether `Date.parse(v)` is a number, `String(v)` for the
      messages, and `new Date().toISOString()`. The first three are only
      consulted on values that convert. */
  datatype Env = Env(toNumber: JsValue -> Option<real>, dateParses: JsValue -> bool,
                     show: JsValue -> string, isoNow: string)

  const Normal: string := "ปกติ"
  const Watch: string := "เฝ้าระวัง"
  const MissingMessage: string := "ข้อมูล user_id หรือ name ไม่ครบ"
  const NumbersMessage: string := "size, moisture, tree_health, fertilizer ต้องเป็นตัวเลข"

  function StatusMessage(status: JsValue, env: Env): string {
    "status ต้องเป็น 'ปกติ' หรือ 'เฝ้าระวัง', ได้ '" + env.show(status) + "'"
  }

  function DateMessage(updated: JsValue, env: Env): string {
    "วันที่ updated ไม่ถูกต้อง: '" + env.show(updated) + "'"
  }

  /** `validStatuses.includes(status)`: strictly one of the two strings. */
  predicate ValidStatus(status: JsValue) {
    status == Str(Normal) || status == Str(Watch)
  }

  /** `Number(v)` of each of the four measurements returns. */
  predicate MeasurementsConvert(req: PlotRequest) {
    Converts(req.size) && Converts(req.moisture) && Converts(req.treeHealth) && Converts(req.fertilizer)
  }

  /** The four measurements all convert to numbers. */
  predicate NumbersOk(req: PlotRequest, env: Env) {
    env.toNumber(req.size).Some? && env.toNumber(req.moisture).Some?
    && env.toNumber(req.treeHealth).Some? && env.toNumber(req.fertilizer).Some?
  }

  /** The kinds that have a `slice` method: strings and arrays. */
  predicate Sliceable(v: JsValue) {
    v.Str? || v.Arr?
  }

  /** At most ten characters, or an array of at most ten elements. */
  predicate ShortSlice(v: JsValue) {
    (v.Str? && |v.s| <= 10) || (v.Arr? && |v.elems| <= 10)
  }

  /** A date the handler goes on with: missing, or a parsable string or
      array. */
  predicate DateUsable(updated: JsValue, env: Env) {
    !Truthy(updated) || (Converts(updated) && env.dateParses(updated) && Sliceable(updated))
  }

  datatype DateOutcome = DateOk(date: JsValue) | DateRefused | DateThrows

  /** The `updated` column: a parsable string or array has its first ten
      characters or elements kept (any other parsable kind has no `slice`
      and throws), a missing one becomes today's date, a present one that
      does not convert throws inside `Date.parse`, and anything else is
      refused. */
  function UpdatedDate(updated: JsValue, env: Env): (r: DateOutcome)
    ensures r.DateOk? ==> ShortSlice(r.date) && r.date.Arr? == updated.Arr?
    ensures r.DateOk? <==> DateUsable(updated, env)
    ensures r.DateRefused? <==> Truthy(updated) && Converts(updated) && !env.dateParses(updated)
    ensures r.DateThrows? <==> Truthy(updated) && (!Converts(updated) || (env.dateParses(updated) && !Sliceable(updated)))
  {
    if Truthy(updated) && !Converts(updated) then DateThrows
    else if Truthy(updated) && env.dateParses(updated) then
      match updated
      case Str(s) => DateOk(Str(JsSlice(s, 0, 10)))
      case Arr(elems) => DateOk(Arr(JsSlice(elems, 0, 10)))
      case _ => DateThrows
    else if !Truthy(updated) then DateOk(Str(JsSlice(env.isoNow, 0, 10)))
    else DateRefused
  }

  /** The handler up to the insert. */
  function AddPlot(req: PlotRequest, env: Env): (r: Outcome)
    ensures r.Insert? ==> ValidStatus(req.status) && r.row.status == req.status.s
    ensures r.Insert? ==> r.row.name == req.name && Truthy(req.name)
    ensures r.Insert? ==> r.row.userId == env.toNumber(req.userId) && Truthy(req.userId)
    ensures r.Insert? ==> r.row.location == (if Truthy(req.location) then req.location else Str(""))
    ensures r.Insert? && !Truthy(req.color) ==> r.row.color == Str(if req.status == Str(Normal) then "green" else "orange")
    ensures r.Insert? && Truthy(req.color) ==> r.row.color == req.color
    ensures r.Insert? ==> ShortSlice(r.row.updated)
    ensures r.ServerError? <==> (
      Truthy(req.userId) && Truthy(req.name) &&
      ((!ValidStatus(req.status) && !Converts(req.status))
       || (ValidStatus(req.status) && Truthy(req.updated)
           && (!Converts(req.updated) || (env.dateParses(req.updated) && !Sliceable(req.updated))))
       || (ValidStatus(req.status) && DateUsable(req.updated, env) && !MeasurementsConvert(req))
       || (ValidStatus(req.status) && DateUsable(req.updated, env) && MeasurementsConvert(req)
           && NumbersOk(req, env) && !Converts(req.userId))))
  {
    if !Truthy(req.userId) || !Truthy(req.name) then BadRequest(MissingMessage)
    else if !ValidStatus(req.status) then
      (if Converts(req.status) then BadRequest(StatusMessage(req.status, env)) else ServerError)
    else
      var plotStatus := req.status.s;
      match UpdatedDate(req.updated, env)
      case DateRefused => BadRequest(DateMessage(req.updated, env))
      case DateThrows => ServerError
      case DateOk(date) =>
        if !MeasurementsConvert(req) then ServerError
        else
          var sizeNum := env.toNumber(req.size);
          var moistureNum := env.toNumber(req.moisture);
          var treeNum := env.toNumber(req.treeHealth);
          var fertilizerNum := env.toNumber(req.fertilizer);
          if sizeNum.None? || moistureNum.None? || treeNum.None? || fertilizerNum.None? then BadRequest(NumbersMessage)
          else if !Converts(req.userId) then ServerError
          else Insert(PlotRow(
            env.toNumber(req.userId), req.name,
            if Truthy(req.location) then req.location else Str(""),
            sizeNum.value, moistureNum.value, treeNum.value, fertilizerNum.value,
            plotStatus, date,
            if Truthy(req.color) then req.color else Str(if plotStatus == Normal then "green" else "orange")))
  }

  /** A missing user id or name is refused before anything else is looked
      at. */
  lemma IdentityCheckedFirst(req: PlotRequest, env: Env)
    requires !Truthy(req.userId) || !Truthy(req.name)
    ensures AddPlot(req, env) == BadRequest(MissingMessage)
  {
  }

  /** With the identity present, a status other than the two refuses the
      request, naming the status it got when that converts to a string. */
  lemma StatusCheckedSecond(req: PlotRequest, env: Env)
    requires Truthy(req.userId) && Truthy(req.name) && !ValidStatus(req.status)
    ensures AddPlot(req, env) == if Converts(req.status) then BadRequest(StatusMessage(req.status, env)) else ServerError
  {
  }

  /** The date comes third: a present value that does not parse is refused
      whatever the measurements are. */
  lemma DateCheckedThird(req: PlotRequest, env: Env)
    requires Truthy(req.userId) && Truthy(req.name) && ValidStatus(req.status)
    requires Truthy(req.updated) && !env.dateParses(req.updated)
    ensures AddPlot(req, env) == if Converts(req.updated) then BadRequest(DateMessage(req.updated, env)) else ServerError
  {
  }

  /** The measurements come last: once the other checks pass with a usable
      date, one measurement that is not a number refuses the request, unless
      converting one of them threw. */
  lemma NumbersCheckedLast(req: PlotRequest, env: Env)
    requires Truthy(req.userId) && Truthy(req.name) && ValidStatus(req.status)
    requires DateUsable(req.updated, env)
    requires !NumbersOk(req, env)
    ensures AddPlot(req, env) == if MeasurementsConvert(req) then BadRequest(NumbersMessage) else ServerError
  {
  }

  /** A request reaches the insert exactly when it passes every check, and
      then the date is the first ten characters (or elements) of the given
      string (or array), or of today's timestamp. Every value converted on
      the way converts. */
  lemma InsertIff(req: PlotRequest, env: Env)
    ensures AddPlot(req, env).Insert? <==>
      Truthy(req.userId) && Truthy(req.name) && ValidStatus(req.status)
      && DateUsable(req.updated, env) && MeasurementsConvert(req)
      && NumbersOk(req, env) && Converts(req.userId)
    ensures AddPlot(req, env).Insert? ==>
      AddPlot(req, env).row.updated ==
        (if !Truthy(req.updated) then Str(JsSlice(env.isoNow, 0, 10))
         else if req.updated.Str? then Str(JsSlice(req.updated.s, 0, 10))
         else Arr(JsSlice(req.updated.elems, 0, 10)))
  {
  }

  /** An object status with an own `toString` key is not refused with a
      400: building the message throws, and the handler answers 500. */
  lemma ObjectStatusThrows(req: PlotRequest, env: Env)
    requires req.userId == Num(1.0) && req.name == Str("a") && req.status == Obj(true)
    ensures AddPlot(req, env) == ServerError
  {
  }

  /** A user id with an own `toString` key passes every check and then
      throws in `Number(user_id)`, so nothing is inserted. */
  lemma ObjectUserIdThrows(req: PlotRequest, env: Env)
    requires req.userId == Obj(true) && req.name == Str("a") && req.status == Str(Normal)
    requires req.updated == Undefined && NumbersOk(req, env) && MeasurementsConvert(req)
    ensures AddPlot(req, env) == ServerError
  {
  }

  /** A parsable array date is sliced like a string, so a request carrying
      one with a measurement that is not a number gets the measurements'
      400, not a 500. */
  lemma ArrayDateReachesNumbers(env: Env)
    requires env.dateParses(Arr([Str("2024-01-01")]))
    requires env.toNumber(Str("x")).None?
    ensures AddPlot(PlotRequest(Num(1.0), Str("a"), Undefined, Str("x"), Num(1.0), Num(1.0), Num(1.0),
                                Str(Normal), Arr([Str("2024-01-01")]), Undefined), env)
            == BadRequest(NumbersMessage)
  {
  }
}
