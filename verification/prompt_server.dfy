/** The prompt handlers registered on the protocol server: listing keeps
    registration order, and getting a prompt takes the first one whose name
    matches. */
module PromptServer {
  import opened Wrappers
  import opened Entities
  import opened Strings

  /** The protocol methods a handler can be installed for. */
  datatype Method = ListPromptsMethod | GetPromptMethod

  /** The protocol errors these handlers raise or pass on: the handler's own
      invalid-params error, and any other error a prompt's message generator
      throws, which the handler does not inspect. */
  datatype McpError = InvalidParams(message: string) | HandlerFailed(message: string)

  /** One entry of a prompt listing. */
  datatype PromptInfo = PromptInfo(name: string, description: Option<string>, arguments: Option<seq<PromptArgument>>)

  /** The reply to a listing request. */
  datatype ListPromptsResult = ListPromptsResult(prompts: seq<PromptInfo>, nextCursor: Option<string>)

  /** The reply to a get request. */
  datatype GetPromptResult = GetPromptResult(description: Option<string>, messages: seq<Message>)

  /** The handlers `register(prompts:)` installs: none for an empty list,
      otherwise a listing handler and a get handler. */
  function RegisteredMethods(prompts: seq<Prompt>): (ms: set<Method>)
    ensures prompts == [] ==> ms == {}
    ensures prompts != [] ==> ListPromptsMethod in ms && GetPromptMethod in ms
  {
    if prompts == [] then {} else {ListPromptsMethod, GetPromptMethod}
  }

  /** The listing handler: one entry per prompt, in registration order, and
      never a continuation cursor. It exists only for a non-empty list. */
  function ListPrompts(prompts: seq<Prompt>): (r: ListPromptsResult)
    requires ListPromptsMethod in RegisteredMethods(prompts)
    ensures |r.prompts| == |prompts| && r.nextCursor == None
    ensures forall i :: 0 <= i < |prompts| ==>
      r.prompts[i] == PromptInfo(prompts[i].name, prompts[i].description, prompts[i].arguments)
  {
    ListPromptsResult(Infos(prompts), None)
  }

  /** The listing entries of `prompts`, in order. */
  function Infos(prompts: seq<Prompt>): (infos: seq<PromptInfo>)
    ensures |infos| == |prompts|
    ensures forall i :: 0 <= i < |prompts| ==>
      infos[i] == PromptInfo(prompts[i].name, prompts[i].description, prompts[i].arguments)
  {
    if prompts == [] then []
    else [PromptInfo(prompts[0].name, prompts[0].description, prompts[0].arguments)] + Infos(prompts[1..])
  }

  /** `k` is the position of the first prompt whose name Swift considers
      equal to `name`. */
  predicate IsFirstNamed(prompts: seq<Prompt>, name: string, k: int, canon: string -> string)
  {
    0 <= k < |prompts| && SwiftEqual(canon, prompts[k].name, name)
    && forall j :: 0 <= j < k ==> !SwiftEqual(canon, prompts[j].name, name)
  }

  /** `prompts.first(where: { $0.name == name })`, as a position. */
  function FirstNamed(prompts: seq<Prompt>, name: string, canon: string -> string): (r: Option<nat>)
    ensures r.None? <==> forall i :: 0 <= i < |prompts| ==> !SwiftEqual(canon, prompts[i].name, name)
    ensures r.Some? ==> IsFirstNamed(prompts, name, r.value, canon)
  {
    if prompts == [] then None
    else if canon(prompts[0].name) == canon(name) then Some(0)
    else
      match FirstNamed(prompts[1..], name, canon)
      case None => None
      case Some(k) => Some(k + 1)
  }

  /** There is at most one first position. */
  lemma FirstNamedUnique(prompts: seq<Prompt>, name: string, k: int, m: int, canon: string -> string)
    requires IsFirstNamed(prompts, name, k, canon) && IsFirstNamed(prompts, name, m, canon)
    ensures k == m
  {
  }

  /** The error message for a name no registered prompt carries. */
  function UnknownPromptMessage(name: string): string
  {
    "Unknown prompt: " + name
  }

  /** The get handler, which exists only for a non-empty list. `render`
      stands for the found prompt's own message generator, which may fail;
      its failure is passed on. */
  function GetPrompt<A>(prompts: seq<Prompt>, name: string, arguments: A,
                        render: (Prompt, A) -> Result<seq<Message>, McpError>,
                        canon: string -> string): (r: Result<GetPromptResult, McpError>)
    requires GetPromptMethod in RegisteredMethods(prompts)
    ensures (forall i :: 0 <= i < |prompts| ==> !SwiftEqual(canon, prompts[i].name, name)) ==>
      r == Failure(InvalidParams(UnknownPromptMessage(name)))
    ensures forall k :: IsFirstNamed(prompts, name, k, canon) && render(prompts[k], arguments).Success? ==>
      r == Success(GetPromptResult(prompts[k].description, render(prompts[k], arguments).value))
    ensures forall k :: IsFirstNamed(prompts, name, k, canon) && render(prompts[k], arguments).Failure? ==>
      r == Failure(render(prompts[k], arguments).error)
  {
    match FirstNamed(prompts, name, canon)
    case None => Failure(InvalidParams(UnknownPromptMessage(name)))
    case Some(k) =>
      assert forall m :: IsFirstNamed(prompts, name, m, canon) ==> m == k;
      match render(prompts[k], arguments)
      case Success(messages) => Success(GetPromptResult(prompts[k].description, messages))
      case Failure(e) => Failure(e)
  }

  /** Where the handlers are installed, a get request is answered with the
      unknown-prompt error exactly when the name is absent from the listing. */
  lemma GetUnknownIffNotListed<A>(prompts: seq<Prompt>, name: string, arguments: A,
                                  render: (Prompt, A) -> Result<seq<Message>, McpError>,
                                  canon: string -> string)
    requires GetPromptMethod in RegisteredMethods(prompts)
    requires forall p: Prompt, a: A :: render(p, a) != Failure(InvalidParams(UnknownPromptMessage(name)))
    ensures GetPrompt(prompts, name, arguments, render, canon) == Failure(InvalidParams(UnknownPromptMessage(name)))
            <==> forall e :: e in ListPrompts(prompts).prompts ==> !SwiftEqual(canon, e.name, name)
  {
    var listed := ListPrompts(prompts).prompts;
    if forall e :: e in listed ==> !SwiftEqual(canon, e.name, name) {
      forall i | 0 <= i < |prompts|
        ensures !SwiftEqual(canon, prompts[i].name, name)
      {
        assert listed[i] in listed;
      }
    } else {
      var e :| e in listed && SwiftEqual(canon, e.name, name);
      var i :| 0 <= i < |listed| && listed[i] == e;
      assert SwiftEqual(canon, prompts[i].name, name);
    }
  }
}
