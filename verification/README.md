# swift-fast-mcp, modelled in Dafny

A model of the value-level core of swift-fast-mcp. This is a fluent builder that configures a Model Context Protocol server: its tools, resources, prompts, transport and lifecycle hooks. The model covers:

- the registration deduplicator. It is one keyed merge, generic over the identity key, used three times: tools by name, resources by URI, prompts by name;
- the immutable builder record with its defaults and setters;
- the pure decisions `run()` takes before handing over to the protocol SDK. These are the logger fallback, the empty-server warning, the four capability flags, the capability descriptor and the transport selection;
- the capability assembler;
- the prompt list and get handlers;
- the example greeting and weather tools, the greeting and code-review prompts, and the error descriptions.

Files, one module each:

- `wrappers.dfy` (`Option`, `Result`)
- `entities.dfy` (tool, resource and prompt records)
- `strings.dfy` (prefix and suffix tests; Swift's string equality `SwiftEqual` under a canonical normal form, with `IsAscii` and `FixesAscii`)
- `deduplicator.dfy`
- `capabilities.dfy`
- `fastmcp.dfy` (builder, run plan, transport)
- `prompt_server.dfy`
- `example_tools.dfy`
- `errors.dfy`

The merge is defined as `existing + Survivors(incoming, KeysOf(existing))`. `DeduplicateLoop` models the Swift loop and is proved equal to that definition. Incoming items are compared only with the keys `existing` had when the call started. So two incoming items with the same new key both survive, and the model keeps that behaviour.

The greeting tool, the weather tool, the code-review reply and the error descriptions each have a reader. The reader recovers from the text every argument that affects it. Round-trip lemmas show that the text carries those arguments verbatim. An absent `formal` reads back as false, because the greeting is formal only for `formal == true`. An absent unit reads back as Celsius, its default. The code-review reader is given the language and recovers only the focus areas. The greeting prompt has no reader: it is tied to the greeting tool instead, whose text its assistant message starts with. The code-review opening states where the language sits in its text.

Swift compares strings by canonical equivalence: a precomposed "é" equals "e" followed by a combining acute accent. Every comparison of names and URIs therefore takes a parameter `canon`, which stands for the map to a canonical normal form. Two strings are equal to Swift exactly when `canon` maps them to the same string (`Strings.SwiftEqual`). These comparisons are the deduplicator's key-set lookup and the get handler's `first(where:)`. Only one fact about `canon` is ever assumed, by `FastMCP.AddToolsTwoBatches`: ASCII strings are already in normal form (`Strings.FixesAscii`).

Where the sources disagree with each other, the model follows what each file says:

- `Capabilities.swift` declares `build(hasTools:hasResources:)` with two flags, but `FastMCP.swift` calls it with four. `Capabilities.Build` takes two flags. `FastMCP.PlanRun` derives all four flags, and only the first two reach the descriptor. `CapabilitiesBuilder.build` has no prompt or sampling field, so the descriptor has none.
- `Transport.swift` declares `stdio` and `http(port:)`. `FastMCP.swift` switches on `stdio`, `inMemory` and `custom`, and the builder's `Transport` has those three variants. `FastMCP.swift` contains no check that rejects a network transport, so the model has none either, even though `FastMCPError` has an `authRequiredForHTTP` case.
- The builder tests read and set a `logLevel`, but the builder has no such member, so it is not modelled.

Values the code receives from its environment are parameters:

- the process name used as the default server name, in `FastMCP.Init`;
- the prompt's own message generator, in `PromptServer.GetPrompt`;
- Swift's canonical string normal form, as `canon`, in the three deduplicator instances, the `add*` setters and the prompt lookup.

Loggers, lifecycle handlers and caller-supplied transports are opaque values. A signal is its number, so SIGTERM and SIGINT are the signals numbered 15 and 2.

## Model

| member | source | states |
|---|---|---|
| `Deduplicator.KeysOf` | Sources/swift-fast-mcp/Internal/Deduplicator.swift:6 | every item's key is in the set, and every key in the set belongs to some item |
| `Deduplicator.Survivors` | Sources/swift-fast-mcp/Internal/Deduplicator.swift:8-10 | an item is kept iff it is incoming and its key is not taken; never longer than the input |
| `Deduplicator.Deduplicate` | Sources/swift-fast-mcp/Internal/Deduplicator.swift:4-13 | the result starts with `existing` unchanged; an item is in the result iff it is in `existing`, or it is incoming with a key absent from `existing` |
| `Deduplicator.DeduplicateLoop` | Sources/swift-fast-mcp/Internal/Deduplicator.swift:4-13 | the copy-collect-append loop returns exactly `existing` followed by the surviving incoming items in input order |
| `Deduplicator.SurvivorsAppend` | Sources/swift-fast-mcp/Internal/Deduplicator.swift:8-10 | filtering distributes over concatenation, so survivors keep their input order |
| `Deduplicator.SurvivorsCount` | Sources/swift-fast-mcp/Internal/Deduplicator.swift:8-10 | the number of survivors equals the number of incoming positions whose key is not taken |
| `Deduplicator.DeduplicateLength` | Sources/swift-fast-mcp/Internal/Deduplicator.swift:5-10 | length is \|existing\| plus the number of incoming items whose key is absent from `existing` |
| `Deduplicator.SurvivorsAllTaken` | Sources/swift-fast-mcp/Internal/Deduplicator.swift:8 | nothing survives when every incoming key is already taken |
| `Deduplicator.SurvivorsNoneTaken` | Sources/swift-fast-mcp/Internal/Deduplicator.swift:8 | everything survives, duplicates included, when no key is taken |
| `Deduplicator.DeduplicateOntoEmpty` | Tests/swift-fast-mcp-tests/DeduplicatorTests.swift:25-30 | merging into an empty list returns the incoming list unchanged, duplicate keys included |
| `Deduplicator.DeduplicateNothing` | Tests/swift-fast-mcp-tests/DeduplicatorTests.swift:12-23 | merging an empty batch returns `existing` |
| `Deduplicator.DeduplicateSelf` | Tests/swift-fast-mcp-tests/DeduplicatorTests.swift:63-69 | merging a list into itself returns it unchanged |
| `Deduplicator.DeduplicateTwice` | Sources/swift-fast-mcp/Internal/Deduplicator.swift:5-12 | adding the same batch a second time changes nothing |
| `Deduplicator.BatchDuplicatesKept` | Sources/swift-fast-mcp/Internal/Deduplicator.swift:6-10 | two incoming items with the same key, absent from `existing`, both survive in order |
| `Deduplicator.SurvivorsUnique` | Sources/swift-fast-mcp/Internal/Deduplicator.swift:8-10 | survivors of a list without repeated keys repeat no key |
| `Deduplicator.DeduplicateKeepsKeysUnique` | Sources/swift-fast-mcp/Internal/Deduplicator.swift:6-10 | if neither input repeats a key, the result repeats no key |
| `Deduplicator.DeduplicateTools` | Sources/swift-fast-mcp/Internal/Deduplicator.swift:3-14 | tools are merged by name: prefix kept, a new tool is added iff no registered tool's name equals its name under Swift's canonical equivalence |
| `Deduplicator.DeduplicateResources` | Sources/swift-fast-mcp/Internal/Deduplicator.swift:16-29 | resources are merged by URI: prefix kept, a new resource is added iff no registered resource's URI equals its URI under Swift's canonical equivalence |
| `Deduplicator.DeduplicatePrompts` | Sources/swift-fast-mcp/Internal/Deduplicator.swift:31-44 | prompts are merged by name: prefix kept, a new prompt is added iff no registered prompt's name equals its name under Swift's canonical equivalence |
| `Deduplicator.ResourceIdentityIsUri` | Sources/swift-fast-mcp/Internal/Deduplicator.swift:21-23 | a resource whose URI Swift considers equal to a registered one is dropped whatever its name, and the registered list is returned |
| `Deduplicator.EquivalentToolNameDropped` | Sources/swift-fast-mcp/Internal/Deduplicator.swift:6-8 | a tool whose name is canonically equivalent to a registered tool's name is dropped, even if the code points differ |
| `FastMCP.Init` | Sources/swift-fast-mcp/FastMCP.swift:36-48 | defaults: process name, version "1.0.0", empty collections, sampling off, stdio, no logger, [SIGTERM, SIGINT], no handlers |
| `FastMCP.Name` | Sources/swift-fast-mcp/FastMCP.swift:50-54 | sets the server name and no other field |
| `FastMCP.Version` | Sources/swift-fast-mcp/FastMCP.swift:56-60 | sets the version and no other field |
| `FastMCP.AddTools` | Sources/swift-fast-mcp/FastMCP.swift:62-66 | tools become the name-keyed merge of current and new; no other field changes |
| `FastMCP.AddResources` | Sources/swift-fast-mcp/FastMCP.swift:68-72 | resources become the URI-keyed merge of current and new; no other field changes |
| `FastMCP.AddPrompts` | Sources/swift-fast-mcp/FastMCP.swift:74-78 | prompts become the name-keyed merge of current and new; no other field changes |
| `FastMCP.EnableSampling` | Sources/swift-fast-mcp/FastMCP.swift:80-84 | sets the sampling flag to the argument, which defaults to true; no other field changes |
| `FastMCP.SetTransport` | Sources/swift-fast-mcp/FastMCP.swift:86-90 | sets the transport choice and no other field |
| `FastMCP.SetLogger` | Sources/swift-fast-mcp/FastMCP.swift:92-96 | sets the custom logger and no other field |
| `FastMCP.SetShutdownSignals` | Sources/swift-fast-mcp/FastMCP.swift:98-102 | replaces the signal list with the argument, without merging; no other field changes |
| `FastMCP.OnStart` | Sources/swift-fast-mcp/FastMCP.swift:104-108 | sets the start handler and no other field |
| `FastMCP.OnShutdown` | Sources/swift-fast-mcp/FastMCP.swift:110-114 | sets the shutdown handler and no other field |
| `FastMCP.Apply` | Sources/swift-fast-mcp/FastMCP.swift:50-114 | every setter call changes at most the one field it targets |
| `FastMCP.StepsOnDifferentFieldsCommute` | Sources/swift-fast-mcp/FastMCP.swift:50-114 | two setter calls on different fields give the same builder in either order |
| `FastMCP.LastOverwriteWins` | Sources/swift-fast-mcp/FastMCP.swift:80-84 | for an overwriting setter such as `enableSampling`, of two calls the last one wins |
| `FastMCP.AddStepTwice` | Sources/swift-fast-mcp/FastMCP.swift:62-78 | repeating an `add*` call with the same batch changes nothing |
| `FastMCP.AddToolsNonEmpty` | Sources/swift-fast-mcp/FastMCP.swift:62-66 | adding a non-empty batch leaves a non-empty tool list |
| `FastMCP.SecondBatchKeepsNewName` | Sources/swift-fast-mcp/FastMCP.swift:62-66 | an example, for any tools: against one registered tool, a batch of an equivalently named tool and a differently named one appends only the second |
| `FastMCP.AddToolsTwoBatches` | Tests/swift-fast-mcp-tests/BuilderTests.swift:92-98 | adding [get_weather] and then [get_weather, calculate] to a fresh builder yields exactly the two tools [get_weather, calculate] |
| `FastMCP.CreateTransport` | Sources/swift-fast-mcp/FastMCP.swift:159-168 | total over the three choices; stdio gets the run logger; a custom transport is returned unchanged |
| `FastMCP.CreateTransportRecoversChoice` | Sources/swift-fast-mcp/FastMCP.swift:159-168 | the transport choice can be read back from the created transport |
| `FastMCP.PlanRun` | Sources/swift-fast-mcp/FastMCP.swift:116-140 | the custom logger, else one labelled with the server name; the warning fires iff all three collections are empty; each has-X flag is "X non-empty"; sampling is copied; the descriptor is `Build` of the tools and resources flags, so it advertises exactly those, with every sub-flag false; the transport is `CreateTransport` of the choice with that same run logger, so stdio logs to it |
| `FastMCP.PlanRunReadsBack` | Sources/swift-fast-mcp/FastMCP.swift:127-140 | the run plan's descriptor advertises exactly the tools and resources flags, and its transport reads back as the builder's transport choice |
| `FastMCP.WarningIffNoCollectionFlag` | Sources/swift-fast-mcp/FastMCP.swift:119-128 | the warning fires iff none of the three collection flags is raised |
| `FastMCP.FreshBuilderPlan` | Sources/swift-fast-mcp/FastMCP.swift:117-128 | a fresh builder warns, advertises nothing and uses stdio with a logger named after the process |
| `FastMCP.AddedToolsSilenceWarning` | Sources/swift-fast-mcp/FastMCP.swift:119-128 | after adding a non-empty tool batch, `run()` does not warn and advertises tools |
| `Capabilities.Build` | Sources/swift-fast-mcp/Internal/Capabilities.swift:4-12 | resources present iff `hasResources`, with subscribe and listChanged false; tools present iff `hasTools`, with listChanged false |
| `Capabilities.BuildAdvertisesFlags` | Sources/swift-fast-mcp/Internal/Capabilities.swift:8-11 | both flags can be read back from the descriptor |
| `Capabilities.BuildFieldsIndependent` | Sources/swift-fast-mcp/Internal/Capabilities.swift:8-11 | changing one flag leaves the other field unchanged |
| `Capabilities.BuildNothing` | Sources/swift-fast-mcp/Internal/Capabilities.swift:8-11 | with both flags off, no capability field is populated |
| `PromptServer.RegisteredMethods` | Sources/swift-fast-mcp/Internal/MCPServer+Extensions.swift:4-24 | no handler for an empty prompt list, otherwise both the list and the get handler |
| `PromptServer.Infos` | Sources/swift-fast-mcp/Internal/MCPServer+Extensions.swift:8-14 | one entry per prompt, at the same position, copying name, description and arguments |
| `PromptServer.ListPrompts` | Sources/swift-fast-mcp/Internal/MCPServer+Extensions.swift:5-16 | defined only for a non-empty list, where the handler is installed; the listing has one entry per prompt in registration order and no cursor |
| `PromptServer.FirstNamed` | Sources/swift-fast-mcp/Internal/MCPServer+Extensions.swift:19 | absent iff no prompt's name equals the requested one under Swift's canonical equivalence; otherwise the position of the first prompt whose name does |
| `PromptServer.FirstNamedUnique` | Sources/swift-fast-mcp/Internal/MCPServer+Extensions.swift:19 | the first matching position is unique |
| `PromptServer.GetPrompt` | Sources/swift-fast-mcp/Internal/MCPServer+Extensions.swift:5-24 | defined only where the handler is installed, that is for a non-empty list; an unknown name gives invalid-params "Unknown prompt: <name>"; otherwise the first match's description and messages, or the generator's own error |
| `PromptServer.GetUnknownIffNotListed` | Sources/swift-fast-mcp/Internal/MCPServer+Extensions.swift:7-21 | for a non-empty list, where the handlers are installed, get answers "unknown prompt" iff no listed entry's name equals the requested one under Swift's canonical equivalence |
| `ExampleTools.GreetingCall` | Sources/ExampleTools/GreetingTool.swift:20-26 | one text item, never an error; "Good day, N." iff formal is true, else "Hey N!" |
| `ExampleTools.GreetingRoundTrip` | Sources/ExampleTools/GreetingTool.swift:21-24 | the name and the style can be read back from the greeting |
| `ExampleTools.GreetingInjective` | Sources/ExampleTools/GreetingTool.swift:21-24 | equal greetings mean equal names and the same formal-or-not style |
| `ExampleTools.WeatherCall` | Sources/ExampleTools/WeatherTool.swift:26-30 | one text item, never an error; "Weather in L: 22°C, Sunny" unless fahrenheit, which gives 72°F |
| `ExampleTools.WeatherRoundTrip` | Sources/ExampleTools/WeatherTool.swift:26-30 | the location and the unit can be read back from the report; an absent unit reads as celsius |
| `ExampleTools.GreetingMessages` | Sources/ExampleTools/GreetingPrompt.swift:38-50 | exactly two messages, user then assistant; formal texts iff formal is true |
| `ExampleTools.PromptOpensWithToolGreeting` | Sources/ExampleTools/GreetingPrompt.swift:41-47 | the assistant message starts with the greeting tool's text for the same name and style |
| `ExampleTools.CodeReviewOpening` | Sources/ExampleTools/GreetingPrompt.swift:78-80 | a user message whose text has the language between the fixed lead and tail |
| `ExampleTools.CodeReviewReply` | Sources/ExampleTools/GreetingPrompt.swift:91-93 | an assistant message; it ends in "review." without focus areas, and in ", with focus on X." with focus areas X |
| `ExampleTools.CodeReviewFocusRoundTrip` | Sources/ExampleTools/GreetingPrompt.swift:91-93 | given the language, the focus areas, or their absence, can be read back from the reply |
| `Errors.NatDigits` | Sources/swift-fast-mcp/FastMCPError.swift:12-13 | a non-empty numeral of digits without leading zeros |
| `Errors.Decimal` | Sources/swift-fast-mcp/FastMCPError.swift:12-13 | a leading minus sign iff negative, otherwise only digits |
| `Errors.NatDigitsValue` | Sources/swift-fast-mcp/FastMCPError.swift:12-13 | a natural number's numeral reads back as that number |
| `Errors.DecimalRoundTrip` | Sources/swift-fast-mcp/FastMCPError.swift:12-13 | the port's numeral reads back as the port |
| `Errors.ErrorDescription` | Sources/swift-fast-mcp/FastMCPError.swift:10-23 | every case has a description, with the fixed texts for port-in-use, invalid configuration, auth-required, start failure and generic errors |
| `Errors.DescriptionRoundTrip` | Sources/swift-fast-mcp/FastMCPError.swift:10-23 | every description parses back to the error it came from |
| `Errors.DescriptionInjective` | Sources/swift-fast-mcp/FastMCPError.swift:10-23 | different model errors never share a description; a `generic` error is known only by its description string, so two Swift errors with equal `localizedDescription`s are the same model error |

## Left out

- The rest of `run()` in `FastMCP.swift`: building the SDK `Server`, the `register(...)` side effects, the `ServiceGroup`, signal handling and the async suspension. These belong to the external protocol SDK and lifecycle runtime. `PlanRun` stops at the values handed to them.
- `Internal/Service.swift`: it only orders calls to foreign operations (start, wait, callbacks) and logs.
- `ExampleTools/MathTool.swift`: it uses `Double` arithmetic and Swift's floating-point formatting.
- `ExampleTools/ConfigResource.swift`: constant data with no behaviour.
- `MCPPrompt.swift` and `Transport.swift` only declare types. Prompts appear as the `Prompt` record, and the transport is the three-variant choice used by `FastMCP.swift`.
- `Example/main.swift` and `Package.swift`: wiring and the package manifest.
- The `@Schemable` schema derivation and the decoding of `[String: Value]` arguments into parameter structs. Handlers take their typed arguments directly.
- The middle messages of `CodeReviewPrompt`. Their `PromptMessageGroup` semantics belong to a foreign library. Only the opening user message and the assistant reply are modelled.
- Logging itself. The empty-server warning is a value in the run plan.
- Unicode normalisation itself. Its tables are not modelled, so canonical equivalence enters only as the parameter `canon`. With `canon` the identity, the model compares code point by code point.
- Errors.ErrorDescription: a `generic` error keeps only an opaque string for the foreign `localizedDescription`.
- Errors.Decimal: Swift's `Int` is 64-bit, but the model uses unbounded integers. The digits are the same for every value a 64-bit `Int` can hold.
- PromptServer.GetUnknownIffNotListed: it requires that the prompt's own message generator never fails with exactly the unknown-prompt error. If it did, that error could not be told apart from a missing prompt.
- PromptServer.RegisteredMethods: it models only which handlers are installed. Installing handlers on the server is a foreign side effect.
