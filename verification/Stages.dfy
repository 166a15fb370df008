/** The stages of a session and the chains that the message types start with. */
module Stages {
  datatype ProcType =
    | NoneProcess | PreProcess | DownloadImage | OutputKafka | PicWait | BusinessSave
    | GenerateUrl | TraceSpace | GetPlugin | MaxProcType

  /** MsgType::BusinessCapture */
  const BUSINESS_CAPTURE := 2

  /** BusinessData::makeProcessChain */
  function BusinessChain(msgType: int, fromRedis: bool): seq<ProcType> {
    if msgType == BUSINESS_CAPTURE then
      if fromRedis then [GetPlugin, BusinessSave, GenerateUrl, OutputKafka]
      else [PicWait, GetPlugin, BusinessSave, GenerateUrl, OutputKafka]
    else [GetPlugin, BusinessSave]
  }

  /** The default chain of PreHandler, used by captures. */
  const CAPTURE_CHAIN := [GetPlugin, DownloadImage, TraceSpace, PicWait, GenerateUrl, OutputKafka]

  const XIASHUN_CAPTURE_CHAIN := [DownloadImage, TraceSpace, BusinessSave, GenerateUrl, OutputKafka]

  /** The kinds of messages that become sessions. */
  datatype Origin = Capture | XiashunCapture | XiashunBusiness | Screenshot | BusinessEvent(msgType: int, fromRedis: bool)

  /** makeProcessChain of each kind. */
  function ChainFor(o: Origin): seq<ProcType> {
    match o
    case Capture => CAPTURE_CHAIN
    case XiashunCapture => XIASHUN_CAPTURE_CHAIN
    case XiashunBusiness => [BusinessSave]
    case Screenshot => [OutputKafka]
    case BusinessEvent(msgType, fromRedis) => BusinessChain(msgType, fromRedis)
  }
}
