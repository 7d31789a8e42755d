/** The three kinds of registrable items, reduced to the fields the builder and
    the prompt handlers read. Their behaviour (a tool's call, a resource's
    content, a prompt's message generator) belongs to the protocol SDK and is
    not part of these records. */
module Entities {
  import opened Wrappers

  /** A tool; its identity key is `name`. */
  datatype Tool = Tool(name: string, description: Option<string>)

  /** A resource; its identity key is `uri` alone, `name` plays no part. */
  datatype Resource = Resource(uri: string, name: string, description: Option<string>, mimeType: Option<string>)

  /** One declared argument of a prompt. */
  datatype PromptArgument = PromptArgument(name: string, description: Option<string>, required: Option<bool>)

  /** A prompt; its identity key is `name`. */
  datatype Prompt = Prompt(name: string, description: Option<string>, arguments: Option<seq<PromptArgument>>)

  /** Who speaks a prompt message. */
  datatype Role = User | Assistant

  /** A prompt message carrying text content. */
  datatype Message = Message(role: Role, text: string)
}
