/**
 * The configuration a reload works from.  Receiver and sender settings the runtime only compares
 * are kept as one `settings` value; a stage list can be nil or present, because copying an empty
 * present list yields nil and the comparison tells the two apart.
 */
module Config {

  datatype StageConfig = StageConfig(
    kind: string,
    offset: int,
    length: int,
    encoding: string,
    hex: string,
    cases: map<string, string>,
    defaultSender: string,
    value: string,
    prefix: string,
    oldText: string,
    newText: string,
    pattern: string,
    replacement: string)

  datatype StageList = Nil | Stages(list: seq<StageConfig>)

  function StagesOf(l: StageList): seq<StageConfig> {
    if l.Nil? then [] else l.list
  }

  datatype ReceiverConfig = ReceiverConfig(selector: string, settings: string)

  datatype SenderConfig = SenderConfig(settings: string)

  datatype SelectorConfig = SelectorConfig(matches: map<string, string>, defaultTaskSet: string)

  datatype TaskConfig = TaskConfig(
    pipelines: seq<string>,
    senders: seq<string>,
    executionModel: string,
    channelQueueSize: int,
    settings: string)

  datatype Config = Config(
    receivers: map<string, ReceiverConfig>,
    selectors: map<string, SelectorConfig>,
    taskSets: map<string, seq<string>>,
    senders: map<string, SenderConfig>,
    pipelines: map<string, StageList>,
    tasks: map<string, TaskConfig>)
}
