/**
 * The middleware in front of every device-API handler: the request is checked for an
 * integer device number, a ClientID of at least 1 and a ClientTransactionID of at least 1,
 * in that order, and then the device number must name a device of the route's type.
 */
module Middleware {
  import opened Wrappers
  import opened GoStrings
  import opened Protocol
  import opened Sessions

  const InvalidDeviceIdParameter: string := "Invalid device_id parameter"
  const InvalidClientIdParameter: string := "Invalid or missing ClientID parameter"
  const InvalidTransactionIdParameter: string := "Invalid or missing ClientTransactionID parameter"
  const DeviceTypeNotSupported: string := "Device type not supported"

  /** What the validation middleware stores for the handlers. */
  datatype ValidationContext = ValidationContext(
    deviceId: int, clientId: int, clientTransactionId: int, fullClientId: ClientId, isValid: bool)

  /** `alpacaValidationMiddleware`: the validated request data, or the 400 reply that aborts the request. */
  function AlpacaValidation(req: Request): (r: Result<ValidationContext, Response>)
    ensures r.Success? <==>
      Atoi(req.deviceIdParam).Some? && GetClientId(req) >= 1 && GetClientTransactionId(req) >= 1
    ensures Atoi(req.deviceIdParam).None? ==> r == Failure(ErrorJson(400, InvalidDeviceIdParameter))
    ensures Atoi(req.deviceIdParam).Some? && GetClientId(req) < 1 ==>
      r == Failure(ErrorJson(400, InvalidClientIdParameter))
    ensures Atoi(req.deviceIdParam).Some? && GetClientId(req) >= 1 && GetClientTransactionId(req) < 1 ==>
      r == Failure(ErrorJson(400, InvalidTransactionIdParameter))
    ensures r.Success? ==> r.value == ValidationContext(
      Atoi(req.deviceIdParam).value, GetClientId(req), GetClientTransactionId(req), GetFullClientId(req), true)
  {
    match Atoi(req.deviceIdParam)
    case None => Failure(ErrorJson(400, InvalidDeviceIdParameter))
    case Some(deviceId) =>
      var clientId := GetClientId(req);
      if clientId < 1 then Failure(ErrorJson(400, InvalidClientIdParameter))
      else
        var clientTransactionId := GetClientTransactionId(req);
        if clientTransactionId < 1 then Failure(ErrorJson(400, InvalidTransactionIdParameter))
        else Success(ValidationContext(deviceId, clientId, clientTransactionId, GetFullClientId(req), true))
  }

  /** ClientID 0 passes the parser but not the middleware. */
  lemma ClientIdZeroIsRejected(req: Request)
    requires Atoi(req.deviceIdParam).Some? && GetClientId(req) == 0
    ensures AlpacaValidation(req) == Failure(ErrorJson(400, InvalidClientIdParameter))
  {
  }

  /** A PUT without any ClientTransactionID field is rejected, because the parser reads it as 0. */
  lemma PutWithoutTransactionIdIsRejected(req: Request)
    requires req.verb == Put && Atoi(req.deviceIdParam).Some? && GetClientId(req) >= 1
    requires PostForm(req.form, "ClientTransactionID") == "" && PostForm(req.form, "clienttransactionid") == ""
    ensures AlpacaValidation(req) == Failure(ErrorJson(400, InvalidTransactionIdParameter))
  {
    PutWithoutTransactionIdIsZero(req);
  }

  /** A validated request's context echoes a positive transaction number unchanged. */
  lemma ValidatedTransactionIdIsEchoed(req: Request)
    requires AlpacaValidation(req).Success?
    ensures 1 <= AlpacaValidation(req).value.clientTransactionId
    ensures GetClientTransactionId(req) < 0x1_0000_0000 ==>
      EchoTransactionId(AlpacaValidation(req).value.clientTransactionId) == GetClientTransactionId(req)
  {
  }

  /**
   * `deviceValidationMiddleware(kind)`: the device filed under the context's device number
   * for this device type, or the 400 reply that aborts the request.
   */
  function DeviceValidation(devices: map<string, map<int, Device>>, kind: string, ctx: ValidationContext)
    : (r: Result<Device, Response>)
    ensures kind !in devices ==> r == Failure(ErrorJson(400, DeviceTypeNotSupported))
    ensures kind in devices && ctx.deviceId !in devices[kind] ==> r == Failure(ErrorJson(400, DeviceNotFound))
    ensures r.Success? <==> kind in devices && ctx.deviceId in devices[kind]
    ensures r.Success? ==> r.value == devices[kind][ctx.deviceId]
  {
    if kind !in devices then Failure(ErrorJson(400, DeviceTypeNotSupported))
    else if ctx.deviceId !in devices[kind] then Failure(ErrorJson(400, DeviceNotFound))
    else Success(devices[kind][ctx.deviceId])
  }

  /** Both middlewares in sequence: the validated context and the addressed device, or the first rejection. */
  function Admit(devices: map<string, map<int, Device>>, kind: string, req: Request)
    : (r: Result<(ValidationContext, Device), Response>)
    ensures AlpacaValidation(req).Failure? ==> r == Failure(AlpacaValidation(req).error)
    ensures AlpacaValidation(req).Success? ==>
      var ctx := AlpacaValidation(req).value;
      match DeviceValidation(devices, kind, ctx)
      case Failure(e) => r == Failure(e)
      case Success(d) => r == Success((ctx, d))
  {
    match AlpacaValidation(req)
    case Failure(e) => Failure(e)
    case Success(ctx) =>
      match DeviceValidation(devices, kind, ctx)
      case Failure(e) => Failure(e)
      case Success(d) => Success((ctx, d))
  }

  /** What a handler behind both middlewares can rely on: the context describes this request, and the device is the one filed under its number. */
  lemma AdmitGuarantees(devices: map<string, map<int, Device>>, kind: string, req: Request, ctx: ValidationContext, dev: Device)
    requires Admit(devices, kind, req) == Success((ctx, dev))
    ensures kind in devices && ctx.deviceId in devices[kind] && devices[kind][ctx.deviceId] == dev
    ensures Atoi(req.deviceIdParam) == Some(ctx.deviceId)
    ensures ctx.clientTransactionId == GetClientTransactionId(req) >= 1
    ensures ctx.clientId == GetClientId(req) >= 1
    ensures ctx.fullClientId == GetFullClientId(req)
  {
  }

  /** A negative device number is an integer, so it gets past the first check and fails the device lookup. */
  lemma NegativeDeviceNumberIsNotFound(devices: map<string, map<int, Device>>, kind: string, req: Request)
    requires AlpacaValidation(req).Success? && AlpacaValidation(req).value.deviceId < 0
    requires kind in devices && forall i :: i in devices[kind] ==> i >= 0
    ensures Admit(devices, kind, req) == Failure(ErrorJson(400, DeviceNotFound))
  {
  }
}
