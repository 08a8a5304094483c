/** The persisted workflow graph: node types, nodes and connections. */
module Workflow {
  import opened Values

  /** The closed set of node types of the schema. */
  datatype NodeType =
    | INITIAL
    | HTTP_REQUEST
    | MANUAL_TRIGGER
    | GOOGLE_FORM_TRIGGER
    | PAYMENT_TRIGGER
    | PAYPAL_TRIGGER
    | GOOGLE_GEMINI
    | ANTHROPIC
    | OPENAI
    | DISCORD
    | SLACK

  /** The enum value's text, as interpolated into error messages. */
  function NodeTypeName(t: NodeType): string {
    match t
    case INITIAL => "INITIAL"
    case HTTP_REQUEST => "HTTP_REQUEST"
    case MANUAL_TRIGGER => "MANUAL_TRIGGER"
    case GOOGLE_FORM_TRIGGER => "GOOGLE_FORM_TRIGGER"
    case PAYMENT_TRIGGER => "PAYMENT_TRIGGER"
    case PAYPAL_TRIGGER => "PAYPAL_TRIGGER"
    case GOOGLE_GEMINI => "GOOGLE_GEMINI"
    case ANTHROPIC => "ANTHROPIC"
    case OPENAI => "OPENAI"
    case DISCORD => "DISCORD"
    case SLACK => "SLACK"
  }

  datatype Node = Node(id: string, nodeType: NodeType, data: map<string, Value>)

  datatype Connection = Connection(fromNodeID: string, toNodeID: string)
}
