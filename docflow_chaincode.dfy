/**
 * The chaincode entry points: `Init`, and `Invoke`, which dispatches the ledger set-up calls,
 * the log-level switch and, for every other name, the business functions.
 */
module DocflowChaincode {
  import opened Wrappers
  import opened DocflowCom
  import opened DocflowProcess

  /** The shim's logging levels. */
  datatype LogLevel = LogDebug | LogInfo | LogNotice | LogWarning | LogError | LogCritical

  /** The chaincode's logger; only its level is modelled. */
  class Logger {
    var level: LogLevel

    constructor (level: LogLevel)
      ensures this.level == level
    {
      this.level := level;
    }
  }

  /** The name `Invoke` sets each level by. */
  function SetterName(l: LogLevel): string
  {
    match l
    case LogDebug => "setDebugLogLevel"
    case LogInfo => "setInfoLogLevel"
    case LogNotice => "setNoticeLogLevel"
    case LogWarning => "setWarningLogLevel"
    case LogError => "setErrorLogLevel"
    case LogCritical => "setCriticalLogLevel"
  }

  /** The message each level is reported set with. */
  function LevelSetMessage(l: LogLevel): string
  {
    match l
    case LogDebug => "Debug log level was set."
    case LogInfo => "Info log level was set."
    case LogNotice => "Notice log level was set."
    case LogWarning => "Warning log level was set."
    case LogError => "Error log level was set."
    case LogCritical => "Critical log level was set."
  }

  /** The log-level switch of `Invoke`. */
  function LevelFor(functionName: string): (l: Option<LogLevel>)
  {
    match functionName
    case "setDebugLogLevel" => Some(LogDebug)
    case "setInfoLogLevel" => Some(LogInfo)
    case "setNoticeLogLevel" => Some(LogNotice)
    case "setWarningLogLevel" => Some(LogWarning)
    case "setErrorLogLevel" => Some(LogError)
    case "setCriticalLogLevel" => Some(LogCritical)
    case _ => None
  }

  /** The switch is exactly the inverse of the setter names: each name sets its own level, and no other name sets one. */
  lemma LevelForInvertsSetterName(l: LogLevel, functionName: string)
    ensures LevelFor(SetterName(l)) == Some(l)
    ensures LevelFor(functionName) == Some(l) ==> functionName == SetterName(l)
  {
  }

  const InitedMessage: string := "Inited successfully!"

  /** `Init`: the chaincode always starts. */
  function Init(): (r: Response)
    ensures !IsFailure(r) && r.message == "Starting chaincode!"
  {
    SuccessMessageResponse("Starting chaincode!")
  }

  /**
   * `initLedger`: the level becomes Debug, the chat template is created, and its failure is
   * passed on.
   */
  method InitLedger(logger: Logger, handler: (BusinessFunction, seq<string>, string) -> Response) returns (r: Response)
    modifies logger`level
    ensures logger.level == LogDebug
    ensures var created := handler(HcCreateTemplateOfChat, [], "false");
            r == if IsFailure(created) then created else SuccessMessageResponse(InitedMessage)
  {
    logger.level := LogDebug;
    r := CallBusinessFunc("hcCreateTemplateOfChat", [], "false", handler);
    if IsFailure(r) {
      return;
    }
    r := SuccessMessageResponse(InitedMessage);
  }

  /**
   * `hcInitLedger`: the level becomes Debug and three set-up functions are called in turn. The
   * first of them is not a business function, so it always fails with the routing error.
   */
  method HcInitLedger(logger: Logger, handler: (BusinessFunction, seq<string>, string) -> Response) returns (r: Response)
    modifies logger`level
    ensures logger.level == LogDebug
    ensures r == InvalidFunctionNameForRoleError("hcCreateOrganizationsAndParticipants", "") && IsFailure(r)
  {
    logger.level := LogDebug;
    r := CallBusinessFunc("hcCreateOrganizationsAndParticipants", [], "false", handler);
    if IsFailure(r) {
      return;
    }
    r := CallBusinessFunc("hcCreateTemplateOfChat", [], "false", handler);
    if IsFailure(r) {
      return;
    }
    r := CallBusinessFunc("hcCreateChat", [], "false", handler);
    if IsFailure(r) {
      return;
    }
    r := SuccessMessageResponse(InitedMessage);
  }

  /**
   * `Invoke`, given the business-function handlers and what `queryUser` answers: the ledger
   * set-up names first, then the log-level names, then the business functions, run for real
   * (simulate "false").
   */
  method Invoke(logger: Logger, functionName: string, args: seq<string>,
                handler: (BusinessFunction, seq<string>, string) -> Response, queryUser: Response)
    returns (r: Response)
    modifies logger`level
    ensures functionName == "initLedger" ==>
              var created := handler(HcCreateTemplateOfChat, [], "false");
              logger.level == LogDebug && r == if IsFailure(created) then created else SuccessMessageResponse(InitedMessage)
    ensures functionName == "hcInitLedger" ==>
              logger.level == LogDebug && r == InvalidFunctionNameForRoleError("hcCreateOrganizationsAndParticipants", "")
    ensures functionName == "queryUser" ==> logger.level == old(logger.level) && r == queryUser
    ensures LevelFor(functionName).Some? ==>
              var l := LevelFor(functionName).value;
              logger.level == l && r == SuccessMessageResponse(LevelSetMessage(l))
    ensures functionName !in {"initLedger", "hcInitLedger", "queryUser"} && LevelFor(functionName).None? ==>
              logger.level == old(logger.level) && r == CallBusinessFunc(functionName, args, "false", handler)
  {
    if functionName == "initLedger" {
      r := InitLedger(logger, handler);
      return;
    } else if functionName == "hcInitLedger" {
      r := HcInitLedger(logger, handler);
      return;
    } else if functionName == "queryUser" {
      return queryUser;
    }
    var level := LevelFor(functionName);
    if level.Some? {
      logger.level := level.value;
      return SuccessMessageResponse(LevelSetMessage(level.value));
    }
    r := CallBusinessFunc(functionName, args, "false", handler);
  }
}
