/**
 * co2DataByTimeFrameHandler: the id path parameter, then the `digits` and
 * `unit` query parameters (defaults 6 and "m"), then the time-frame check.
 * The data query itself is disabled in the handler, so it echoes the id and
 * the resolved time frame and reads no storage.
 */
module Co2Handler {
  import opened Helpers
  import opened Responses
  import opened Validation

  /** The echoed id and time frame (minutes). */
  datatype TimeFrameBody = TimeFrameBody(id: int, minutes: int)

  method Co2DataByTimeFrameHandler(maxTimeFrameDays: int, idParam: string, qs: Query)
    returns (resp: Response<TimeFrameBody>)
    ensures ReadIdParam(idParam).Failure? ==> resp == NotFound
    ensures ReadIdParam(idParam).Success? && IntParamInvalid(qs, "digits") ==>
      resp.FailedValidation? && resp.errors.Keys == {"digits"}
    ensures ReadIdParam(idParam).Success? && !IntParamInvalid(qs, "digits") ==>
      var timeFrame := ValidateTimeFrame(maxTimeFrameDays, IntParam(qs, "digits", 6), ReadString(qs, "unit", "m"));
      resp == if timeFrame.Failure? then FailedValidation(map["unit" := [timeFrame.error]])
              else Json(StatusOK, TimeFrameBody(ReadIdParam(idParam).value, timeFrame.value))
    ensures ReadIdParam(idParam).Success? && maxTimeFrameDays >= 1 &&
            QueryGet(qs, "digits") == "" && QueryGet(qs, "unit") == "" ==>
      resp == Json(StatusOK, TimeFrameBody(ReadIdParam(idParam).value, 6))
  {
    var v := new Validator();
    var idResult := ReadIdParam(idParam);
    if idResult.Failure? {
      return NotFound;
    }
    var id := idResult.value;

    var digits := ReadInt(qs, "digits", 6, v);
    var unit := ReadString(qs, "unit", "m");

    if !v.Valid() {
      return FailedValidation(v.errors);
    }

    var timeFrame := ValidateTimeFrame(maxTimeFrameDays, digits, unit);
    if timeFrame.Failure? {
      return FailedValidation(map["unit" := [timeFrame.error]]);
    }

    return Json(StatusOK, TimeFrameBody(id, timeFrame.value));
  }
}
