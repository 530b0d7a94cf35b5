/** The command-based collection strategy of the Informix collector: a metric whose
    declared return type is numeric is collected by running its script through the
    `onstat` command executor and parsing the first token of the output as an `int`. */
module CommandStrategy {
  import opened Wrappers
  import opened JavaInt
  import opened JavaString

  /** Whether `TypeChecker.isNumber` accepts the declared return type. */
  datatype ReturnType = NumericType | OtherType

  datatype MetricDataConfig = MetricDataConfig(scriptName: string, returnType: ReturnType)

  /** The exceptions that escape `collectMetricsUsingCMD`. */
  datatype CommandFailure =
    | NoFirstToken                // `result.get()[0]` on an empty array
    | NotAnInt(token: string)     // `Integer.parseInt` throws NumberFormatException

  /** What `executeCommand(scriptName)` returns: the output's tokens, or an empty
      `Optional`. */
  type Executor = string -> Option<seq<string>>

  /** The result of one collection (a number, or `None` for null) or the exception it
      throws, with the scripts the executor was asked to run. */
  datatype Collected = Collected(value: Result<Option<Int32>, CommandFailure>, scriptsRun: seq<string>)

  /** `collectMetricsUsingCMD(metricDataConfig, onstatCommandExecutor)`. */
  function CollectMetricsUsingCmd(config: MetricDataConfig, executor: Executor): (r: Collected)
    ensures config.returnType == OtherType ==> r == Collected(Ok(None), [])
    ensures config.returnType == NumericType ==> r.scriptsRun == [config.scriptName]
    ensures config.returnType == NumericType && executor(config.scriptName).None? ==> r.value == Ok(None)
  {
    if config.returnType != NumericType then Collected(Ok(None), [])
    else
      var result := executor(config.scriptName);
      var value :=
        if result.None? then Ok(None)
        else if result.value == [] then Err(NoFirstToken)
        else match ParseInt(result.value[0])
          case Ok(n) => Ok(Some(n))
          case Err(_) => Err(NotAnInt(result.value[0]));
      Collected(value, [config.scriptName])
  }

  /** The strategy with the executor it was constructed with. */
  datatype CommandExecutorStrategy = CommandExecutorStrategy(onstatCommandExecutor: Executor)
  {
    /** `collectMetrics(metricDataConfig)`. */
    function CollectMetrics(config: MetricDataConfig): Collected
    {
      CollectMetricsUsingCmd(config, onstatCommandExecutor)
    }
  }

  /** The output's first token decides the result: tokens after it are never read. */
  lemma OnlyFirstTokenRead(config: MetricDataConfig, executor: Executor, other: Executor)
    requires config.returnType == NumericType
    requires executor(config.scriptName).Some? && other(config.scriptName).Some?
    requires executor(config.scriptName).value != [] && other(config.scriptName).value != []
    requires executor(config.scriptName).value[0] == other(config.scriptName).value[0]
    ensures CollectMetricsUsingCmd(config, executor) == CollectMetricsUsingCmd(config, other)
  {
  }

  /** Output whose first token parses yields the decimal value of that token, whatever
      its sign or leading zeros; in particular the decimal form of an `int` yields that
      `int`. */
  lemma FirstTokenValue(config: MetricDataConfig, executor: Executor)
    requires config.returnType == NumericType
    requires executor(config.scriptName).Some? && executor(config.scriptName).value != []
    requires ParseInt(executor(config.scriptName).value[0]).Ok?
    ensures var token := executor(config.scriptName).value[0];
      CollectMetricsUsingCmd(config, executor).value == Ok(Some(ParseInt(token).value))
    ensures forall n: Int32 :: executor(config.scriptName).value[0] == IntToString(n) ==>
      CollectMetricsUsingCmd(config, executor).value == Ok(Some(n))
  {
    var token := executor(config.scriptName).value[0];
    forall n: Int32 | token == IntToString(n)
      ensures CollectMetricsUsingCmd(config, executor).value == Ok(Some(n))
    {
      ParseIntToString(n);
    }
  }

  /** A missing or unparsable first token is not caught: the exception escapes. */
  lemma BadOutputEscapes(config: MetricDataConfig, executor: Executor)
    requires config.returnType == NumericType && executor(config.scriptName).Some?
    requires var out := executor(config.scriptName).value; out == [] || ParseInt(out[0]).Err?
    ensures CollectMetricsUsingCmd(config, executor).value.Err?
    ensures executor(config.scriptName).value == [] <==> CollectMetricsUsingCmd(config, executor).value == Err(NoFirstToken)
  {
  }

  /** `collectMetrics` depends only on the executor fixed at construction: two
      strategies built with executors that answer a script alike collect alike. */
  lemma CollectMetricsUsesOwnExecutor(s: CommandExecutorStrategy, t: CommandExecutorStrategy, config: MetricDataConfig)
    requires s.onstatCommandExecutor(config.scriptName) == t.onstatCommandExecutor(config.scriptName)
    ensures s.CollectMetrics(config) == t.CollectMetrics(config)
    ensures s.CollectMetrics(config) == CollectMetricsUsingCmd(config, s.onstatCommandExecutor)
  {
  }
}
