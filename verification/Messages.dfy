/** Messages as the runtime, the journal and the summarizer see them. */
module Messages {
  import opened Common

  type Text = string

  /** Bytes of one character in UTF-8, as in section 3 of RFC 3629. */
  function CharBytes(c: char): nat {
    if c as int < 0x80 then 1 else if c as int < 0x800 then 2 else if c as int < 0x10000 then 3 else 4
  }

  function TextBytes(t: Text): nat {
    if t == [] then 0 else CharBytes(t[0]) + TextBytes(t[1..])
  }

  /** Bytes of one character inside a JSON string literal. */
  function JsonCharBytes(c: char): nat {
    if c == '\"' || c == '\\' || c as int in {8, 9, 10, 12, 13} then 2
    else if c as int < 0x20 then 6
    else CharBytes(c)
  }

  function JsonBodyBytes(t: Text): nat {
    if t == [] then 0 else JsonCharBytes(t[0]) + JsonBodyBytes(t[1..])
  }

  function JsonBytes(t: Text): nat { 2 + JsonBodyBytes(t) }

  /** The longest prefix of at most the given number of bytes. */
  function FloorText(t: Text, limit: nat): Text {
    if t == [] || CharBytes(t[0]) > limit then [] else [t[0]] + FloorText(t[1..], limit - CharBytes(t[0]))
  }

  function Excerpt(t: Text, limit: nat): Text {
    if TextBytes(t) <= limit then t else FloorText(t, limit) + "\U{2026}[truncated]"
  }

  datatype Argument = Absent | NotText | Str(text: Text)

  /** A tool call; of its arguments only the two that name a target matter here. */
  datatype ToolCall = ToolCall(id: Id, name: Text, path: Argument, command: Argument) {
    function Target(): Text {
      var chosen := if path.Absent? then command else path;
      if chosen.Str? then chosen.text else ""
    }
  }

  /** A block of an assistant message. BadCall is a toolCall block that does not parse; Raw is any other type. */
  datatype Block = Words(text: Text) | Call(call: ToolCall) | BadCall | Raw

  datatype ContentBlock = TextBlock(text: Text) | OtherBlock

  datatype Content = Plain(text: Text) | Blocks(blocks: seq<ContentBlock>) | OtherContent {
    predicate Readable() {
      match this
      case Plain(_) => true
      case Blocks(blocks) => forall b <- blocks :: b.TextBlock?
      case OtherContent => false
    }

    function FirstText(): Text {
      match this
      case Plain(text) => text
      case Blocks(blocks) => if blocks != [] && blocks[0].TextBlock? then blocks[0].text else ""
      case OtherContent => ""
    }
  }

  datatype Stop = StopEnd | StopLength | StopToolUse | StopOther

  datatype Status = Success | Error | UnknownStatus {
    function Bytes(): nat {
      match this case Success => 9 case Error => 7 case UnknownStatus => 9
    }
  }

  /** A bounded receipt of one settled tool call. */
  datatype Receipt = Receipt(tool: Text, target: Text, status: Status, output: Text) {
    /** Serialized size: four keys, their values and the punctuation. */
    function Bytes(): nat {
      46 + JsonBytes(tool) + JsonBytes(target) + status.Bytes() + JsonBytes(output)
    }
  }

  /** A checkpoint summary; BadSummary is any JSON value that is not the five-field object. */
  datatype Summary =
    | Summary(objective: Text, constraints: seq<Text>, changes: seq<Text>, tests: seq<Text>, pending: seq<Text>)
    | BadSummary

  /** Checkpoint is the user message, flagged as a context summary, that compaction builds. */
  datatype Message =
    | User(content: Content, isContinuation: bool)
    | Checkpoint(summary: Summary, receipts: seq<Receipt>)
    | Assistant(blocks: seq<Block>, stop: Stop)
    | ToolResult(callId: Option<Id>, toolName: Option<Text>, content: Content, isError: Option<bool>)
    | OtherRole
  {
    predicate IsUserRole() { User? || Checkpoint? }
  }

  /** The tool calls of an assistant message, or None if one of them is invalid. */
  function ToolCalls(blocks: seq<Block>): Option<seq<ToolCall>> {
    if blocks == [] then Some([])
    else
      var rest := ToolCalls(blocks[1..]);
      match blocks[0]
      case Call(call) =>
        if rest.None? || call.id == EMPTY || call.name == "" then None else Some([call] + rest.value)
      case BadCall => None
      case _ => rest
  }
}
