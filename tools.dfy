/**
 * The two tools the model may call, the schema published for them, and the
 * dispatcher that turns a batch of tool-call requests into tool-role replies.
 */
module Tools {
  import opened Wrappers
  import opened Text
  import opened Protocol

  const UserDetailsTool: string := "record_user_details"
  const UnknownQuestionTool: string := "record_unknown_question"

  /** What a handler returns before `json.dumps`: `{"recorded": "ok"}`, or `{}` when no handler ran. */
  datatype ToolOutput = Recorded | Neutral

  /** `json.dumps` of the two outputs, with Python's default separators. */
  function Serialize(o: ToolOutput): (s: string)
    ensures s == "{}" <==> o == Neutral
  {
    match o
    case Recorded => "{\"recorded\": \"ok\"}"
    case Neutral => "{}"
  }

  /** The effect of running one handler: the notice it pushes, if any, and its output. */
  datatype Invocation = Invocation(notice: Option<string>, output: ToolOutput)

  /** The notices an invocation pushes, in order. */
  function Notices(inv: Invocation): (s: seq<string>)
    ensures |s| == (if inv.notice.Some? then 1 else 0)
  {
    if inv.notice.Some? then [inv.notice.value] else []
  }

  const NamePlaceholder: string := "Name not provided"
  const NotesPlaceholder: string := "not provided"
  const RecordingPrefix: string := "Recording "

  /**
   * `record_user_details`: pushes one notice naming the visitor, their email
   * and the notes, and reports that it recorded them.
   */
  function RecordUserDetails(email: string, name: string := NamePlaceholder, notes: string := NotesPlaceholder): (r: Invocation)
    ensures r.output == Recorded && r.notice.Some?
    ensures OccursAt(r.notice.value, RecordingPrefix, 0)
    ensures Contains(r.notice.value, name) && Contains(r.notice.value, email) && Contains(r.notice.value, notes)
  {
    var text := RecordingPrefix + name + " with email " + email + " and notes " + notes;
    var beforeEmail := RecordingPrefix + name + " with email ";
    OccursAfter(RecordingPrefix, name);
    OccursBefore(RecordingPrefix + name, name, |RecordingPrefix|, " with email ");
    OccursBefore(beforeEmail, name, |RecordingPrefix|, email);
    OccursBefore(beforeEmail + email, name, |RecordingPrefix|, " and notes ");
    OccursBefore(beforeEmail + email + " and notes ", name, |RecordingPrefix|, notes);
    OccursAfter(beforeEmail, email);
    OccursBefore(beforeEmail + email, email, |beforeEmail|, " and notes ");
    OccursBefore(beforeEmail + email + " and notes ", email, |beforeEmail|, notes);
    OccursAfter(beforeEmail + email + " and notes ", notes);
    assert text[0..|RecordingPrefix|] == RecordingPrefix;
    Invocation(Some(text), Recorded)
  }

  /** `record_unknown_question`: pushes one notice that is the prefix followed by the question verbatim. */
  function RecordUnknownQuestion(question: string): (r: Invocation)
    ensures r.output == Recorded && r.notice.Some?
    ensures OccursAt(r.notice.value, RecordingPrefix, 0)
    ensures r.notice.value[|RecordingPrefix|..] == question
  {
    Invocation(Some(RecordingPrefix + question), Recorded)
  }

  /** The handlers a tool name can resolve to. */
  datatype Handler = UserDetailsHandler | UnknownQuestionHandler

  /** The tools that can be dispatched, by name. */
  const Registry: map<string, Handler> :=
    map[UserDetailsTool := UserDetailsHandler, UnknownQuestionTool := UnknownQuestionHandler]

  function Lookup(args: map<string, string>, key: string, default: string): string
  {
    if key in args then args[key] else default
  }

  /**
   * Calls a handler with the decoded arguments as keyword arguments, as
   * `tool(**arguments)` does: an argument the handler's signature does not
   * name, or a missing argument without a default, raises a TypeError.
   */
  function Bind(h: Handler, args: map<string, string>): (r: Result<Invocation, TurnError>)
    ensures r.Ok? ==> r.value.output == Recorded && r.value.notice.Some?
    ensures h == UserDetailsHandler && r.Ok? ==>
      && "email" in args
      && r.value == RecordUserDetails(args["email"], Lookup(args, "name", NamePlaceholder), Lookup(args, "notes", NotesPlaceholder))
    ensures h == UnknownQuestionHandler && r.Ok? ==>
      "question" in args && r.value == RecordUnknownQuestion(args["question"])
  {
    match h
    case UserDetailsHandler =>
      if "email" in args && args.Keys <= {"email", "name", "notes"} then
        Ok(RecordUserDetails(args["email"], Lookup(args, "name", NamePlaceholder), Lookup(args, "notes", NotesPlaceholder)))
      else
        Err(ArgumentMismatch(UserDetailsTool))
    case UnknownQuestionHandler =>
      if args.Keys == {"question"} then Ok(RecordUnknownQuestion(args["question"]))
      else Err(ArgumentMismatch(UnknownQuestionTool))
  }

  /** A tool as published to the chat-completion service: its parameters (name to description) and which are required. */
  datatype ToolDefinition = ToolDefinition(name: string, description: string, properties: map<string, string>, required: set<string>)

  const UserDetailsDefinition: ToolDefinition := ToolDefinition(
    UserDetailsTool,
    "Use this tool to record that a user is interested in being in touch and provided an email address",
    map["email" := "The email address of this user",
        "name" := "The user's name, if they provided it",
        "notes" := "Any additional information about the conversation that's worth recording to give context"],
    {"email"})

  const UnknownQuestionDefinition: ToolDefinition := ToolDefinition(
    UnknownQuestionTool,
    "Always use this tool to record any question that couldn't be answered as you didn't know the answer",
    map["question" := "The question that couldn't be answered"],
    {"question"})

  /** The `tools` list sent with every request. */
  const Definitions: seq<ToolDefinition> := [UserDetailsDefinition, UnknownQuestionDefinition]

  /** Arguments the schema admits: every required parameter, and no property it does not list. */
  predicate Conforms(d: ToolDefinition, args: map<string, string>)
  {
    d.required <= args.Keys <= d.properties.Keys
  }

  /** The published tools are exactly the registered ones. */
  lemma DefinitionsNameRegistry()
    ensures Registry.Keys == set d | d in Definitions :: d.name
  {
    assert UserDetailsDefinition in Definitions;
    assert UnknownQuestionDefinition in Definitions;
  }

  /** A handler accepts the arguments exactly when its published schema admits them. */
  lemma BindingFollowsSchema(d: ToolDefinition, args: map<string, string>)
    requires d in Definitions
    ensures d.name in Registry
    ensures Bind(Registry[d.name], args).Ok? <==> Conforms(d, args)
  {
    if d == UserDetailsDefinition {
      assert UserDetailsDefinition.properties.Keys == {"email", "name", "notes"};
    } else {
      assert UnknownQuestionDefinition.properties.Keys == {"question"};
      if args.Keys <= {"question"} && "question" in args {
        assert args.Keys == {"question"};
      }
    }
  }

  /**
   * Runs one tool call: `json.loads` of its arguments (which raises first,
   * whatever the name), then the registered handler, or the empty output
   * `{}` with no push when nothing is registered under the name.
   */
  function Execute(call: ToolCall): (r: Result<Invocation, TurnError>)
    ensures call.arguments.Malformed? ==> r == Err(MalformedArguments(call.id))
    ensures !call.arguments.Malformed? && call.name !in Registry ==> r == Ok(Invocation(None, Neutral))
    ensures r.Ok? ==> (r.value.notice.Some? <==> call.name in Registry)
    ensures r.Ok? ==> (r.value.output == Neutral <==> call.name !in Registry)
  {
    if call.arguments.Malformed? then Err(MalformedArguments(call.id))
    else if call.name !in Registry then Ok(Invocation(None, Neutral))
    else match call.arguments
      case Object(fields) => Bind(Registry[call.name], fields)
      case _ => Err(ArgumentMismatch(call.name))
  }

  /** A call naming a published tool goes through exactly when its arguments are a JSON object that the tool's schema admits. */
  lemma ExecuteFollowsSchema(call: ToolCall, d: ToolDefinition)
    requires d in Definitions && call.name == d.name && !call.arguments.Malformed?
    ensures Execute(call).Ok? <==> call.arguments.Object? && Conforms(d, call.arguments.fields)
  {
    if call.arguments.Object? {
      BindingFollowsSchema(d, call.arguments.fields);
    }
  }

  /**
   * A call to a registered tool that goes through ran that tool's handler on
   * its arguments, with the handler's defaults for the ones left out.
   */
  lemma ExecuteRunsHandler(call: ToolCall)
    requires call.name in Registry && Execute(call).Ok?
    ensures call.arguments.Object?
    ensures var args := call.arguments.fields;
      && (call.name == UserDetailsTool ==>
            && "email" in args
            && Execute(call).value == RecordUserDetails(args["email"], Lookup(args, "name", NamePlaceholder), Lookup(args, "notes", NotesPlaceholder)))
      && (call.name == UnknownQuestionTool ==>
            "question" in args && Execute(call).value == RecordUnknownQuestion(args["question"]))
  {
    assert Registry[UserDetailsTool] == UserDetailsHandler;
    assert Registry[UnknownQuestionTool] == UnknownQuestionHandler;
  }

  /** The tool-role entry answering `call` once its handler produced `inv`. */
  function Reply(call: ToolCall, inv: Invocation): Message
  {
    Tool(Serialize(inv.output), call.id)
  }

  /** What dispatching a batch does: the replies (or the error that aborted it) and the notices pushed. */
  datatype Batch = Batch(outcome: Result<seq<Message>, TurnError>, pushes: seq<string>)

  /**
   * Dispatches the calls in order. The first call that raises aborts the
   * batch; the notices pushed by the calls before it stay pushed.
   */
  function HandleAll(calls: seq<ToolCall>): Batch
    decreases |calls|
  {
    if calls == [] then Batch(Ok([]), [])
    else
      var before := HandleAll(calls[..|calls| - 1]);
      var call := calls[|calls| - 1];
      if before.outcome.Err? then before
      else match Execute(call)
        case Err(e) => Batch(Err(e), before.pushes)
        case Ok(inv) => Batch(Ok(before.outcome.value + [Reply(call, inv)]), before.pushes + Notices(inv))
  }

  /** The number of calls that name a registered tool. */
  function CountRegistered(calls: seq<ToolCall>): nat
  {
    if calls == [] then 0
    else CountRegistered(calls[..|calls| - 1]) + (if calls[|calls| - 1].name in Registry then 1 else 0)
  }

  /** Once a prefix of the batch has raised, the rest of the batch changes nothing. */
  lemma {:induction false} AbortIsFinal(calls: seq<ToolCall>, k: nat)
    requires k <= |calls|
    requires HandleAll(calls[..k]).outcome.Err?
    ensures HandleAll(calls) == HandleAll(calls[..k])
    decreases |calls| - k
  {
    if k < |calls| {
      assert calls[..k + 1][..k] == calls[..k];
      AbortIsFinal(calls, k + 1);
    } else {
      assert calls[..k] == calls;
    }
  }

  /**
   * A batch that goes through has one reply per call, in the calls' order:
   * reply i is a tool entry whose id is call i's and whose content is call
   * i's serialised output; one notice was pushed per call naming a
   * registered tool.
   */
  lemma {:induction false} RepliesCorrelate(calls: seq<ToolCall>)
    requires HandleAll(calls).outcome.Ok?
    ensures var replies := HandleAll(calls).outcome.value;
      && |replies| == |calls|
      && (forall i :: 0 <= i < |calls| ==>
            && Execute(calls[i]).Ok?
            && replies[i].Tool? && replies[i].Role() == "tool"
            && replies[i].toolCallId == calls[i].id
            && replies[i].content == Serialize(Execute(calls[i]).value.output))
    ensures |HandleAll(calls).pushes| == CountRegistered(calls)
  {
    if calls != [] {
      var init := calls[..|calls| - 1];
      RepliesCorrelate(init);
      assert forall i :: 0 <= i < |init| ==> init[i] == calls[i];
    }
  }

  /**
   * In a batch that goes through, the notices pushed are the registered
   * calls' notices in call order: the notice of registered call i sits after
   * one notice for each registered call before it.
   */
  lemma {:induction false} PushesInCallOrder(calls: seq<ToolCall>)
    requires HandleAll(calls).outcome.Ok?
    ensures forall i :: 0 <= i < |calls| && calls[i].name in Registry ==>
      && Execute(calls[i]).Ok?
      && CountRegistered(calls[..i]) < |HandleAll(calls).pushes|
      && HandleAll(calls).pushes[CountRegistered(calls[..i])] == Execute(calls[i]).value.notice.value
  {
    if calls != [] {
      var n := |calls|;
      var init := calls[..n - 1];
      var before := HandleAll(init);
      assert before.outcome.Ok?;
      var inv := Execute(calls[n - 1]).value;
      assert HandleAll(calls).pushes == before.pushes + Notices(inv);
      PushesInCallOrder(init);
      RepliesCorrelate(init);
      forall i | 0 <= i < n && calls[i].name in Registry
        ensures && Execute(calls[i]).Ok?
                && CountRegistered(calls[..i]) < |HandleAll(calls).pushes|
                && HandleAll(calls).pushes[CountRegistered(calls[..i])] == Execute(calls[i]).value.notice.value
      {
        if i < n - 1 {
          assert calls[..i] == init[..i];
          assert calls[i] == init[i];
        } else {
          assert calls[..i] == init;
          assert Notices(inv) == [inv.notice.value];
        }
      }
    }
  }

  /** A batch goes through exactly when no call in it raises. */
  lemma {:induction false} BatchSucceedsIff(calls: seq<ToolCall>)
    ensures HandleAll(calls).outcome.Ok? <==> forall i :: 0 <= i < |calls| ==> Execute(calls[i]).Ok?
  {
    if calls != [] {
      var init := calls[..|calls| - 1];
      BatchSucceedsIff(init);
      assert forall i :: 0 <= i < |init| ==> init[i] == calls[i];
    }
  }

  /** Call `k` is the first in the batch to raise. */
  ghost predicate FirstFailureAt(calls: seq<ToolCall>, k: int)
  {
    && 0 <= k < |calls|
    && Execute(calls[k]).Err?
    && forall j :: 0 <= j < k ==> Execute(calls[j]).Ok?
  }

  /**
   * A batch that raises raises the first failing call's error, and has
   * pushed exactly what the calls before that one pushed.
   */
  lemma {:induction false} AbortAtFirstFailure(calls: seq<ToolCall>)
    requires HandleAll(calls).outcome.Err?
    ensures exists k :: FirstFailureAt(calls, k)
                        && HandleAll(calls).outcome == Err(Execute(calls[k]).error)
                        && HandleAll(calls).pushes == HandleAll(calls[..k]).pushes
  {
    var init := calls[..|calls| - 1];
    assert forall i :: 0 <= i < |init| ==> init[i] == calls[i];
    if HandleAll(init).outcome.Err? {
      AbortAtFirstFailure(init);
      var k :| FirstFailureAt(init, k)
               && HandleAll(init).outcome == Err(Execute(init[k]).error)
               && HandleAll(init).pushes == HandleAll(init[..k]).pushes;
      assert init[..k] == calls[..k];
      assert FirstFailureAt(calls, k);
    } else {
      var k := |calls| - 1;
      BatchSucceedsIff(init);
      assert calls[..k] == init;
      assert FirstFailureAt(calls, k);
    }
  }

  /**
   * A batch naming only unregistered tools pushes nothing and answers every
   * call with `{}`; it is not an error.
   */
  lemma {:induction false} UnknownToolsAnswerEmpty(calls: seq<ToolCall>)
    requires forall i :: 0 <= i < |calls| ==> calls[i].name !in Registry && !calls[i].arguments.Malformed?
    ensures HandleAll(calls).outcome.Ok? && |HandleAll(calls).outcome.value| == |calls|
    ensures forall i :: 0 <= i < |calls| ==> HandleAll(calls).outcome.value[i] == Tool("{}", calls[i].id)
    ensures HandleAll(calls).pushes == []
  {
    if calls != [] {
      var init := calls[..|calls| - 1];
      var last := calls[|calls| - 1];
      assert forall i :: 0 <= i < |init| ==> init[i] == calls[i];
      UnknownToolsAnswerEmpty(init);
      assert Execute(last) == Ok(Invocation(None, Neutral));
      assert Reply(last, Invocation(None, Neutral)) == Tool("{}", last.id);
    }
  }
}
