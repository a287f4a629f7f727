/**
 * The orchestrator service: it classifies an incoming event, looks up a
 * template and the user's channel preferences, and issues one dispatch
 * request per enabled preference, with the template rendered from the
 * event's data.
 *
 * The two remote lookups are collaborators: each is a total function from
 * the query the orchestrator sends to what comes back (a value, nothing, or
 * a failure).
 */
module Orchestrator {
  import opened Wrappers
  import opened Messages
  import Text

  /** One entry of the event's data map, its value already turned into text. */
  datatype Entry = Entry(key: string, value: string)

  /**
   * An incoming event. `data` lists the entries of the event's data map in
   * the order the map happens to iterate them.
   */
  datatype EventData = EventData(eventType: string, userId: string, data: seq<Entry>)

  /** The part of a stored template the orchestrator reads. */
  datatype TemplateResponse = TemplateResponse(subject: string, body: string)

  /** The part of a stored preference the orchestrator reads. */
  datatype PreferenceResponse = PreferenceResponse(channel: ChannelType, isEnabled: bool)

  /** The arguments of the template search. */
  datatype TemplateQuery = TemplateQuery(name: string, channel: ChannelType, language: string)

  /** The arguments of the preference search. */
  datatype PreferenceQuery = PreferenceQuery(userId: string, category: string)

  /**
   * What the template search yields: one template, a successful reply with an
   * empty body, or an error signal. The template service answers a search
   * that matches no template with "not found", which the client turns into
   * an error signal, so a missing template is `TemplateLookupFailed`;
   * `TemplateAbsent` is only a successful reply without a body.
   */
  datatype TemplateLookup = TemplateFound(template: TemplateResponse) | TemplateAbsent | TemplateLookupFailed

  /** What the preference search yields once collected into a list, or an error signal. */
  datatype PreferenceLookup = PreferencesFound(preferences: seq<PreferenceResponse>) | PreferenceLookupFailed

  /** The lookup whose error ended the processing of an event. */
  datatype Stage = TemplateStage | PreferenceStage

  /**
   * How the processing of one event ends. `Dispatched` lists the dispatch
   * requests posted to the dispatcher service, in the order they are built;
   * `NoTemplate` is the empty completion when the template search replies
   * successfully with no body; `LookupFailed` is the error signal of a failed
   * lookup, which includes a search that finds no template.
   */
  datatype Outcome =
    | Dispatched(requests: seq<NotificationRequest>)
    | NoTemplate
    | LookupFailed(stage: Stage)

  /** The dispatch requests an outcome has issued. */
  function Issued(o: Outcome): seq<NotificationRequest> {
    if o.Dispatched? then o.requests else []
  }

  // ---------------------------------------------------------------------
  // Category

  /**
   * The preference category of an event type: "ORDER" for types starting
   * with "ORDER", "USER_EVENT" for types starting with "USER", and
   * "MARKETING" for every other type. No type starts with both prefixes, so
   * each answer holds exactly when its prefix matches.
   */
  function DetermineCategory(eventType: string): (category: string)
    ensures category in {"ORDER", "USER_EVENT", "MARKETING"}
    ensures category == "ORDER" <==> "ORDER" <= eventType
    ensures category == "USER_EVENT" <==> "USER" <= eventType
    ensures category == "MARKETING" <==> !("ORDER" <= eventType) && !("USER" <= eventType)
  {
    if "ORDER" <= eventType then
      assert eventType[0] == 'O';
      "ORDER"
    else if "USER" <= eventType then
      "USER_EVENT"
    else
      "MARKETING"
  }

  // ---------------------------------------------------------------------
  // Rendering

  /** The placeholder `{{key}}` that stands for a data entry in a template. */
  function Token(key: string): (token: string)
    ensures |token| == |key| + 4
    ensures token[..2] == "{{" && token[2..|token| - 2] == key && token[|token| - 2..] == "}}"
  {
    "{{" + key + "}}"
  }

  /**
   * The template after the data entries have been substituted one after the
   * other, in the order they are listed: the last entry's placeholder is
   * replaced in the result of rendering with all earlier entries. A
   * template in which no entry's placeholder occurs renders to itself.
   */
  function Render(template: string, data: seq<Entry>): (rendered: string)
    ensures (forall i :: 0 <= i < |data| ==> !Text.Contains(template, Token(data[i].key))) ==> rendered == template
    decreases |data|
  {
    if data == [] then template
    else
      var last := data[|data| - 1];
      var earlier := Render(template, data[..|data| - 1]);
      if forall i :: 0 <= i < |data| ==> !Text.Contains(template, Token(data[i].key)) then
        Text.ReplaceAllAbsent(template, Token(last.key), last.value);
        Text.ReplaceAll(earlier, Token(last.key), last.value)
      else
        Text.ReplaceAll(earlier, Token(last.key), last.value)
  }

  /**
   * Substitutes each data entry into the template in turn, each step
   * replacing every `{{key}}` of that entry by its value. With no data, or
   * when no entry's placeholder occurs in the template, the template comes
   * back unchanged.
   */
  method RenderTemplate(template: string, data: seq<Entry>) returns (rendered: string)
    ensures rendered == Render(template, data)
    ensures data == [] ==> rendered == template
    ensures (forall i :: 0 <= i < |data| ==> !Text.Contains(template, Token(data[i].key))) ==> rendered == template
  {
    rendered := template;
    for i := 0 to |data|
      invariant rendered == Render(template, data[..i])
    {
      rendered := Text.ReplaceAll(rendered, Token(data[i].key), data[i].value);
      assert data[..i + 1][..i] == data[..i];
    }
    assert data[..|data|] == data;
  }

  /**
   * Rendering is sequential: rendering with `d1 + d2` is rendering with
   * `d2` what rendering with `d1` produced.
   */
  lemma {:induction false} RenderSequential(template: string, d1: seq<Entry>, d2: seq<Entry>)
    ensures Render(template, d1 + d2) == Render(Render(template, d1), d2)
    decreases |d2|
  {
    if d2 == [] {
      assert d1 + d2 == d1;
    } else {
      var d2' := d2[..|d2| - 1];
      RenderSequential(template, d1, d2');
      assert (d1 + d2)[..|d1 + d2| - 1] == d1 + d2';
      assert (d1 + d2)[|d1 + d2| - 1] == d2[|d2| - 1];
    }
  }

  /**
   * Rendering is not a single pass: a value that itself holds a placeholder
   * is expanded by an entry substituted later.
   */
  lemma RenderExpandsLaterPlaceholders()
    ensures Render("{{a}}", [Entry("a", "{{b}}"), Entry("b", "x")]) == "x"
  {
    var step := Text.ReplaceAll("{{a}}", Token("a"), "{{b}}");
    assert step == "{{b}}" by {
      assert "{{a}}"[..5] == Token("a");
      assert "{{a}}"[5..] == [];
    }
    assert [Entry("a", "{{b}}"), Entry("b", "x")][..1] == [Entry("a", "{{b}}")];
    assert Render("{{a}}", [Entry("a", "{{b}}")]) == step;
    assert Text.ReplaceAll("{{b}}", Token("b"), "x") == "x" by {
      assert "{{b}}"[..5] == Token("b");
      assert "{{b}}"[5..] == [];
    }
  }

  // ---------------------------------------------------------------------
  // Fan-out

  /** The enabled preferences, in their original order. */
  function Enabled(preferences: seq<PreferenceResponse>): (enabled: seq<PreferenceResponse>)
    ensures |enabled| <= |preferences|
    ensures forall p :: p in enabled ==> p.isEnabled && p in preferences
    decreases |preferences|
  {
    if preferences == [] then []
    else (if preferences[0].isEnabled then [preferences[0]] else []) + Enabled(preferences[1..])
  }

  /**
   * Filtering keeps every enabled preference as often as it occurs and drops
   * every disabled one.
   */
  lemma {:induction false} EnabledCounts(preferences: seq<PreferenceResponse>)
    ensures forall p :: multiset(Enabled(preferences))[p] == if p.isEnabled then multiset(preferences)[p] else 0
    decreases |preferences|
  {
    if preferences != [] {
      EnabledCounts(preferences[1..]);
      assert preferences == [preferences[0]] + preferences[1..];
    }
  }

  /** Filtering distributes over concatenation. */
  lemma {:induction false} EnabledAppend(a: seq<PreferenceResponse>, b: seq<PreferenceResponse>)
    ensures Enabled(a + b) == Enabled(a) + Enabled(b)
    decreases |a|
  {
    if a == [] {
      assert a + b == b;
    } else {
      var head := if a[0].isEnabled then [a[0]] else [];
      calc {
        Enabled(a + b);
        == { assert (a + b)[0] == a[0]; }
        head + Enabled((a + b)[1..]);
        == { assert (a + b)[1..] == a[1..] + b; }
        head + Enabled(a[1..] + b);
        == { EnabledAppend(a[1..], b); }
        head + (Enabled(a[1..]) + Enabled(b));
        ==
        (head + Enabled(a[1..])) + Enabled(b);
      }
    }
  }

  /** The rendered subject and body of a template for the event's data. */
  function RenderMessage(template: TemplateResponse, data: seq<Entry>): MessageContent {
    MessageContent(Render(template.subject, data), Render(template.body, data))
  }

  /**
   * The dispatch request sent for one enabled channel: it goes to the
   * event's user on that channel, carries the rendered template, and its
   * metadata holds the event type and nothing else.
   */
  function RequestFor(event: EventData, template: TemplateResponse, channel: ChannelType): (request: NotificationRequest)
    ensures request.userId == event.userId && request.channel == channel
    ensures request.message == RenderMessage(template, event.data)
    ensures request.metadata.Keys == {"eventType"} && request.metadata["eventType"] == event.eventType
  {
    NotificationRequest(event.userId, channel, RenderMessage(template, event.data), map["eventType" := event.eventType])
  }

  /**
   * One dispatch request per enabled preference, carrying that preference's
   * channel, the event's user, the template rendered with the event's data,
   * and exactly the event type as metadata.
   */
  function FanOut(event: EventData, template: TemplateResponse, preferences: seq<PreferenceResponse>)
    : (requests: seq<NotificationRequest>)
    ensures |requests| == |Enabled(preferences)|
    ensures forall i :: 0 <= i < |requests| ==> requests[i].channel == Enabled(preferences)[i].channel
    ensures forall r :: r in requests ==>
      && r.userId == event.userId
      && r.message == RenderMessage(template, event.data)
      && r.metadata == map["eventType" := event.eventType]
      && exists p :: p in preferences && p.isEnabled && p.channel == r.channel
  {
    var enabled := Enabled(preferences);
    seq(|enabled|, i requires 0 <= i < |enabled| => RequestFor(event, template, enabled[i].channel))
  }

  /** The channels of a sequence of requests. */
  function RequestChannels(requests: seq<NotificationRequest>): seq<ChannelType> {
    seq(|requests|, i requires 0 <= i < |requests| => requests[i].channel)
  }

  /** The channels of a sequence of preferences. */
  function PreferenceChannels(preferences: seq<PreferenceResponse>): seq<ChannelType> {
    seq(|preferences|, i requires 0 <= i < |preferences| => preferences[i].channel)
  }

  /** The channels of the enabled preferences, element by element. */
  function EnabledChannels(preferences: seq<PreferenceResponse>): seq<ChannelType>
    decreases |preferences|
  {
    if preferences == [] then []
    else (if preferences[0].isEnabled then [preferences[0].channel] else []) + EnabledChannels(preferences[1..])
  }

  lemma {:induction false} ChannelsOfEnabled(preferences: seq<PreferenceResponse>)
    ensures PreferenceChannels(Enabled(preferences)) == EnabledChannels(preferences)
    decreases |preferences|
  {
    if preferences != [] {
      ChannelsOfEnabled(preferences[1..]);
      var head := if preferences[0].isEnabled then [preferences[0]] else [];
      assert PreferenceChannels(head + Enabled(preferences[1..]))
        == PreferenceChannels(head) + PreferenceChannels(Enabled(preferences[1..]));
    }
  }

  /**
   * The dispatched channels are exactly the enabled channels, counted with
   * multiplicity: one request per enabled preference, none for a disabled one.
   */
  lemma FanOutChannels(event: EventData, template: TemplateResponse, preferences: seq<PreferenceResponse>)
    ensures multiset(RequestChannels(FanOut(event, template, preferences))) == multiset(EnabledChannels(preferences))
  {
    ChannelsOfEnabled(preferences);
    assert RequestChannels(FanOut(event, template, preferences)) == PreferenceChannels(Enabled(preferences));
  }

  /** A disabled preference, wherever it stands in the list, issues nothing. */
  lemma DisabledPreferenceIgnored(event: EventData, template: TemplateResponse,
                                  before: seq<PreferenceResponse>, p: PreferenceResponse, after: seq<PreferenceResponse>)
    requires !p.isEnabled
    ensures FanOut(event, template, before + [p] + after) == FanOut(event, template, before + after)
  {
    EnabledAppend(before + [p], after);
    EnabledAppend(before, [p]);
    EnabledAppend(before, after);
    assert Enabled([p]) == [] by {
      assert [p][1..] == [];
    }
    assert Enabled(before + [p]) == Enabled(before);
  }

  // ---------------------------------------------------------------------
  // Processing one event

  /** The template search: the template named after the event type, for the EMAIL channel, in English. */
  function TemplateQueryFor(event: EventData): TemplateQuery {
    TemplateQuery(event.eventType, EMAIL, "en")
  }

  /** The preference search: the event's user and the category of its type. */
  function PreferenceQueryFor(event: EventData): PreferenceQuery {
    PreferenceQuery(event.userId, DetermineCategory(event.eventType))
  }

  /**
   * Processes one event. Both lookups are issued; dispatch requests are
   * issued only when both produced a value, and then one per enabled
   * preference. A successful template reply without a body completes with
   * nothing dispatched; a failed lookup, including a template search that
   * finds no template, is an error, again with nothing dispatched.
   */
  function ProcessEvent(event: EventData,
                        templates: TemplateQuery -> TemplateLookup,
                        preferences: PreferenceQuery -> PreferenceLookup): (o: Outcome)
    ensures
      var tl := templates(TemplateQuery(event.eventType, EMAIL, "en"));
      var pl := preferences(PreferenceQuery(event.userId, DetermineCategory(event.eventType)));
      && (o.Dispatched? <==> tl.TemplateFound? && pl.PreferencesFound?)
      && (o.Dispatched? ==> o.requests == FanOut(event, tl.template, pl.preferences))
      && (o == NoTemplate <==> tl.TemplateAbsent? && pl.PreferencesFound?)
      && (o == LookupFailed(TemplateStage) <==> tl.TemplateLookupFailed?)
      && (o == LookupFailed(PreferenceStage) <==> !tl.TemplateLookupFailed? && pl.PreferenceLookupFailed?)
      && (tl.TemplateFound? && pl == PreferencesFound([]) ==> o == Dispatched([]))
  {
    var tl := templates(TemplateQueryFor(event));
    var pl := preferences(PreferenceQueryFor(event));
    if tl.TemplateLookupFailed? then LookupFailed(TemplateStage)
    else if pl.PreferenceLookupFailed? then LookupFailed(PreferenceStage)
    else if tl.TemplateAbsent? then NoTemplate
    else Dispatched(FanOut(event, tl.template, pl.preferences))
  }

  /**
   * The lookups are made with arguments fixed by the event: the outcome
   * depends on the template collaborator only through the template named
   * after the event type for EMAIL in English, and on the preference
   * collaborator only through the event's user and category.
   */
  lemma LookupArguments(event: EventData,
                        t1: TemplateQuery -> TemplateLookup, t2: TemplateQuery -> TemplateLookup,
                        p1: PreferenceQuery -> PreferenceLookup, p2: PreferenceQuery -> PreferenceLookup)
    requires t1(TemplateQuery(event.eventType, EMAIL, "en")) == t2(TemplateQuery(event.eventType, EMAIL, "en"))
    requires p1(PreferenceQuery(event.userId, DetermineCategory(event.eventType)))
          == p2(PreferenceQuery(event.userId, DetermineCategory(event.eventType)))
    ensures ProcessEvent(event, t1, p1) == ProcessEvent(event, t2, p2)
  {
  }

  /**
   * Every issued request carries the event's user, the template rendered
   * with the event's data and the event type as its only metadata, on a
   * channel some enabled preference asked for; and the issued channels are
   * exactly the enabled ones, counted with multiplicity.
   */
  lemma IssuedRequests(event: EventData,
                       templates: TemplateQuery -> TemplateLookup,
                       preferences: PreferenceQuery -> PreferenceLookup)
    ensures
      var o := ProcessEvent(event, templates, preferences);
      var tl := templates(TemplateQueryFor(event));
      var pl := preferences(PreferenceQueryFor(event));
      && (Issued(o) != [] ==> tl.TemplateFound? && pl.PreferencesFound?)
      && (forall r :: r in Issued(o) ==>
            && r.userId == event.userId
            && r.message == RenderMessage(tl.template, event.data)
            && r.metadata == map["eventType" := event.eventType]
            && exists p :: p in pl.preferences && p.isEnabled && p.channel == r.channel)
      && (o.Dispatched? ==> multiset(RequestChannels(Issued(o))) == multiset(EnabledChannels(pl.preferences)))
  {
    var o := ProcessEvent(event, templates, preferences);
    if o.Dispatched? {
      var tl := templates(TemplateQueryFor(event));
      var pl := preferences(PreferenceQueryFor(event));
      FanOutChannels(event, tl.template, pl.preferences);
    }
  }

  /**
   * An order event for a user who enabled EMAIL and disabled SMS, with the
   * template subject "Order {{order_id}} shipped", yields exactly one EMAIL
   * request, whose subject is "Order 42 shipped".
   */
  lemma OrderShippedExample(templates: TemplateQuery -> TemplateLookup,
                            preferences: PreferenceQuery -> PreferenceLookup)
    requires templates(TemplateQuery("ORDER_SHIPPED", EMAIL, "en"))
          == TemplateFound(TemplateResponse("Order " + Token("order_id") + " shipped", ""))
    requires preferences(PreferenceQuery("u1", "ORDER"))
          == PreferencesFound([PreferenceResponse(EMAIL, true), PreferenceResponse(Other("SMS"), false)])
    ensures
      var event := EventData("ORDER_SHIPPED", "u1", [Entry("order_id", "42")]);
      var o := ProcessEvent(event, templates, preferences);
      && o.Dispatched? && |o.requests| == 1
      && o.requests[0].channel == EMAIL
      && o.requests[0].message.subject == "Order " + "42" + " shipped"
  {
    var event := EventData("ORDER_SHIPPED", "u1", [Entry("order_id", "42")]);
    assert DetermineCategory(event.eventType) == "ORDER";
    var prefs := [PreferenceResponse(EMAIL, true), PreferenceResponse(Other("SMS"), false)];
    assert Enabled(prefs) == [PreferenceResponse(EMAIL, true)] by {
      assert prefs[1..][1..] == [];
    }
    var head, tail := "Order ", " shipped";
    assert event.data[..0] == [];
    assert Render(head + Token("order_id") + tail, event.data)
        == Text.ReplaceAll(head + Token("order_id") + tail, Token("order_id"), "42");
    SubstituteSinglePlaceholder(head, "order_id", tail, "42");
  }

  /**
   * A placeholder preceded by text without braces and followed by text
   * without the placeholder is replaced once, the text around it kept.
   */
  lemma SubstituteSinglePlaceholder(head: string, key: string, tail: string, value: string)
    requires '{' !in head && !Text.Contains(tail, Token(key))
    ensures Text.ReplaceAll(head + Token(key) + tail, Token(key), value) == head + value + tail
  {
    var token := Token(key);
    var s := head + token + tail;
    forall j: nat | j < |head| ensures !Text.OccursAt(s, token, j) {
      assert s[j] == head[j];
      if j + |token| <= |s| {
        assert s[j..j + |token|][0] == s[j];
      }
    }
    assert s[|head|..|head| + |token|] == token;
    Text.ReplaceAllFirstAt(s, token, value, |head|);
    assert s[..|head|] == head;
    assert s[|head| + |token|..] == tail;
    Text.ReplaceAllAbsent(tail, token, value);
  }
}
