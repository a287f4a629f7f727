# Notification orchestration and dispatch, modelled in Dafny

This project models the two pieces of the notification pipeline that hold
logic:

- **The orchestrator service** (`orchestrator.dfy`). It takes an incoming event
  and classifies its type into a preference category. It looks up the
  event's template and the user's channel preferences for that category.
  Then it posts one dispatch request per enabled preference to the dispatcher
  service, with the template's subject and body rendered from the event's data.
  The two remote lookups are collaborators. Each is a total function from the
  query the orchestrator sends to what comes back: a value, nothing, or a
  failure. `ProcessEvent` is a pure function from the event and the two
  collaborators to the requests it issues or the way it ends.
  `RenderTemplate` is the imperative loop that substitutes the data entries
  one after the other. It is proved equal to the specification function
  `Render`.
- **The dispatcher service** (`dispatcher.dfy`). It holds a registry from
  channel to sender, built once from the list of available senders. A
  duplicate channel makes the build fail. `Dispatch` hands a request to the
  sender registered for its channel, or refuses it. The registry is a `const`
  field of the `DispatcherService` class, just as it is a `final` field in the
  source, so no dispatch can change it. The constructor models a successful
  build, so it requires distinct channels. `DispatcherService.Create` covers
  both outcomes: where the source's constructor throws
  `IllegalStateException`, it returns the duplicate-key error and no service.

Supporting modules:
- `text.dfy` models the `java.lang.String` operations the renderer relies on:
  `indexOf` and `replace`.
- `messages.dfy` holds the request value the two services exchange.
- `wrappers.dfy` holds `Option` and `Result`.

The model follows the code. Four behaviours of the code differ from what a
reader might expect of a notification pipeline:
- Rendering substitutes one data entry after another. It is not a single
  pass, so a value that contains `{{other}}` is expanded by a later entry
  (`RenderExpandsLaterPlaceholders`).
- Classification tests the prefix "ORDER" and then "USER". It does not use a
  longest-prefix table. The two prefixes cannot both match, so the order of
  the tests does not matter (`DetermineCategory`).
- The template is always looked up for the EMAIL channel, whatever channels
  the user enabled.
- An unregistered channel is refused with an exception. It does not produce
  a per-channel "not supported" outcome.

## Model

| member | source | states |
|---|---|---|
| Orchestrator.DetermineCategory | orchestrator-service/src/main/java/com/example/orchestratorservice/OrchestratorService.java:58-66 | The category is always one of "ORDER", "USER_EVENT", "MARKETING". It is "ORDER" exactly when the type starts with "ORDER", "USER_EVENT" exactly when it starts with "USER", and "MARKETING" exactly when it starts with neither. |
| Orchestrator.RenderTemplate | orchestrator-service/src/main/java/com/example/orchestratorservice/OrchestratorService.java:68-74 | The loop's result equals `Render`, the entry-by-entry substitution. With no data, or when no entry's `{{key}}` occurs in the template, the template comes back unchanged. |
| Orchestrator.Token | orchestrator-service/src/main/java/com/example/orchestratorservice/OrchestratorService.java:71 | The placeholder for a key is the key between "{{" and "}}", so the key can be read back from it. It is four characters longer than the key and never empty. |
| Orchestrator.Render | orchestrator-service/src/main/java/com/example/orchestratorservice/OrchestratorService.java:70-73 | The specification of the loop: the entries are substituted one after the other, in the order the map yields them. When no entry's placeholder occurs in the template, every step is the identity and the template comes back. |
| Orchestrator.RenderSequential | orchestrator-service/src/main/java/com/example/orchestratorservice/OrchestratorService.java:70-72 | Rendering with `d1 + d2` equals rendering with `d2` the result of rendering with `d1`: each entry is applied once, in turn, to the text so far. |
| Orchestrator.RenderExpandsLaterPlaceholders | orchestrator-service/src/main/java/com/example/orchestratorservice/OrchestratorService.java:70-72 | A value holding `{{b}}`, substituted for `{{a}}`, is expanded by a later entry for `b`. Rendering is not single-pass. |
| Orchestrator.SubstituteSinglePlaceholder | orchestrator-service/src/main/java/com/example/orchestratorservice/OrchestratorService.java:71 | A placeholder preceded by brace-free text and followed by text without that placeholder is replaced by the value once, and the surrounding text is kept. |
| Text.IndexOf | orchestrator-service/src/main/java/com/example/orchestratorservice/OrchestratorService.java:71 | The result is the leftmost occurrence of the target at or after the start position. When the result is absent, no occurrence exists there. |
| Text.ReplaceAll | orchestrator-service/src/main/java/com/example/orchestratorservice/OrchestratorService.java:71 | `String.replace`. Replacing the target by itself leaves every text unchanged, and a replacement as long as the target keeps the text's length. `Text.ReplaceAllLeftmost` characterises it completely as the leftmost, non-overlapping scan. |
| Text.ReplaceAllCopiesPrefix | orchestrator-service/src/main/java/com/example/orchestratorservice/OrchestratorService.java:71 | Text before the first occurrence of the target is copied unchanged. |
| Text.ReplaceAllLeftmost | orchestrator-service/src/main/java/com/example/orchestratorservice/OrchestratorService.java:71 | `replace` is the left-to-right scan. With no occurrence the text is unchanged. Otherwise the text before the leftmost occurrence is kept, that occurrence becomes the value, and the scan resumes right after it, so matches never overlap. |
| Text.ReplaceAllFirstAt | orchestrator-service/src/main/java/com/example/orchestratorservice/OrchestratorService.java:71 | An occurrence with none before it is the first one replaced. The text before it is kept and the scan resumes after it. |
| Text.ReplaceAllAbsent | orchestrator-service/src/main/java/com/example/orchestratorservice/OrchestratorService.java:71 | When the placeholder does not occur, a substitution step returns its input unchanged. |
| Orchestrator.Enabled | orchestrator-service/src/main/java/com/example/orchestratorservice/OrchestratorService.java:37-38 | The filtered list has only enabled preferences, all taken from the input, and is no longer than the input. |
| Orchestrator.EnabledCounts | orchestrator-service/src/main/java/com/example/orchestratorservice/OrchestratorService.java:37-38 | The filter keeps every enabled preference as many times as it occurs and drops every disabled one. |
| Orchestrator.EnabledAppend | orchestrator-service/src/main/java/com/example/orchestratorservice/OrchestratorService.java:37-38 | Filtering a concatenation gives the concatenation of the filtered parts. |
| Orchestrator.RequestFor | orchestrator-service/src/main/java/com/example/orchestratorservice/OrchestratorService.java:42-47 | The request for one enabled channel goes to the event's user on that channel and carries the rendered subject and body. Its metadata has the single key "eventType", holding the event's type. |
| Orchestrator.FanOut | orchestrator-service/src/main/java/com/example/orchestratorservice/OrchestratorService.java:37-47 | There is one request per enabled preference, carrying that preference's channel. Every request has the event's user, the subject and body rendered from the template with the event's data, and metadata exactly {"eventType": type}. |
| Orchestrator.ChannelsOfEnabled | orchestrator-service/src/main/java/com/example/orchestratorservice/OrchestratorService.java:37-38 | The channels of the filtered list are the channels of the enabled preferences. |
| Orchestrator.FanOutChannels | orchestrator-service/src/main/java/com/example/orchestratorservice/OrchestratorService.java:37-47 | The dispatched channels equal the enabled channels, counted with multiplicity: no more and no fewer. |
| Orchestrator.DisabledPreferenceIgnored | orchestrator-service/src/main/java/com/example/orchestratorservice/OrchestratorService.java:38 | Inserting a disabled preference anywhere in the list changes no request. |
| Orchestrator.ProcessEvent | orchestrator-service/src/main/java/com/example/orchestratorservice/OrchestratorService.java:17-56 | The template is looked up by (event type, EMAIL, "en") and the preferences by (user, category). Requests are issued exactly when both lookups produced a value, and they are the fan-out. A successful template reply with no body completes with nothing issued. A failed lookup ends in an error. A template search that matches nothing is answered "not found", which is such a failure (`TemplateLookupFailed`). An empty preference list issues zero requests. |
| Orchestrator.LookupArguments | orchestrator-service/src/main/java/com/example/orchestratorservice/OrchestratorService.java:18-30 | The outcome depends on the collaborators only through the template search (event type, EMAIL, "en") and the preference search (user id, category of the type). |
| Orchestrator.IssuedRequests | orchestrator-service/src/main/java/com/example/orchestratorservice/OrchestratorService.java:34-47 | Nothing is issued unless both lookups produced a value. Every issued request has the event's user, the rendered template, the event-type metadata, and a channel that some enabled preference asked for. The issued channels equal the enabled channels with multiplicity. |
| Orchestrator.OrderShippedExample | orchestrator-service/src/main/java/com/example/orchestratorservice/OrchestratorService.java:17-56 | For an ORDER_SHIPPED event whose user enabled EMAIL and disabled SMS, exactly one EMAIL request is issued, with subject "Order 42 shipped". |
| Dispatcher.DistinctChannelsCons | dispatcher-service/src/main/java/com/example/dispatcherservice/DispatcherService.java:16-17 | A list has distinct channels exactly when its tail does and its head's channel is not among the tail's. |
| Dispatcher.CollectInto | dispatcher-service/src/main/java/com/example/dispatcherservice/DispatcherService.java:16-17 | Accumulating senders into a map succeeds exactly when no channel repeats or clashes with an existing key. On success the map extends the accumulator with each sender under the channel it reports. On failure it names a channel that one of the remaining senders reports (`CollectIntoNamesDuplicate` shows that channel is also a key already or reported twice). |
| Dispatcher.CollectToMap | dispatcher-service/src/main/java/com/example/dispatcherservice/DispatcherService.java:15-18 | The registry build succeeds exactly when no two senders report the same channel. Its keys are then the reported channels, each mapped to the sender that reported it. A duplicate fails, naming a channel that two senders report. |
| Dispatcher.RegistryDetermined | dispatcher-service/src/main/java/com/example/dispatcherservice/DispatcherService.java:15-18 | Two registries whose keys are the reported channels, and that map each channel to its reporting sender, are equal. |
| Dispatcher.EmailOnlyRegistry | dispatcher-service/src/main/java/com/example/dispatcherservice/EmailDispatcher.java:17-20 | The registry built from the email sender alone is exactly {EMAIL: email sender}. |
| Dispatcher.DispatcherService.constructor | dispatcher-service/src/main/java/com/example/dispatcherservice/DispatcherService.java:13-18 | For senders with distinct channels, the registry's keys are the reported channels, each mapped to the sender that reported it. |
| Dispatcher.DispatcherService.Create | dispatcher-service/src/main/java/com/example/dispatcherservice/DispatcherService.java:15-18 | Construction fails with the duplicate-key error exactly when two senders report the same channel. Otherwise it yields a fresh service whose registry is the collected map. |
| Dispatcher.DispatcherService.Dispatch | dispatcher-service/src/main/java/com/example/dispatcherservice/DispatcherService.java:20-27 | On a registered channel, exactly that channel's sender is invoked, once, with the unchanged request. On an unregistered channel no sender is invoked and the request is refused with the channel named. The registry is constant. |
| Dispatcher.RoutedToReportingSender | dispatcher-service/src/main/java/com/example/dispatcherservice/DispatcherService.java:15-23 | In a registry built from senders with distinct channels, a request on a channel reported by sender k is routed to sender k. |

## Left out

- The transport is not modelled: the HTTP calls, `Mono.zip`, and the scheduling and concurrency of `flatMap`. The lookups are inputs. The dispatch requests are a sequence in the order they are built, which is the enabled-preference order in which `flatMap` subscribes to them. The model claims nothing about the order in which the posts complete.
- The result of each dispatch POST is not modelled. In the source, an error in any one dispatch call errors the whole pipeline. The model has no per-channel isolation.
- A template search that finds no template is not a separate case. The template service answers it with "not found", and the client turns that into an error signal, so the model gives it as `TemplateLookupFailed`. `TemplateAbsent` stands only for a successful reply without a body, which ends with nothing dispatched.
- Orchestrator.ProcessEvent: if one lookup yields nothing and the other fails, or both fail, the source's signal depends on which lookup finishes first. The model reports a template failure first, then a preference failure, then an absent template. In every such case nothing is dispatched, as in the source.
- The data map is a `HashMap`, and its iteration order is unspecified. The model takes its entries as a sequence in whatever order the map yields them. Values are taken as already converted by `String.valueOf`.
- Null fields are not modelled, because Dafny values are never null. In the source:
  - a null event type throws `NullPointerException` at once, in `determineCategory`;
  - a null user id is sent as an empty query parameter and is copied into the requests;
  - a null data map fails only when rendering for an enabled preference, and then it errors the whole pipeline.
- Text.ReplaceAll: the behaviour of `String.replace` for an empty target is not modelled, because the renderer's target `{{key}}` always has at least four characters.
- The source files of `TemplateResponse`, `UserPreferenceResponse`, `ChannelType` and the `ChannelDispatcher` interface are not available here. The model declares its own `TemplateResponse`, `PreferenceResponse`, `ChannelType` and `ChannelDispatcher`, with only the fields that the core reads through its getters. A channel is `EMAIL` or some other named constant.
- The senders' own work is left out. `EmailDispatcher.dispatch` only writes a log line. A dispatch is modelled as a recorded invocation, and the email sender as a value that reports `EMAIL`.
- The gateway controllers, the template and preference services with their repositories and entities, the Kafka event consumer and the tracking service are left out. They are storage, HTTP or logging wrappers with no logic of their own.
