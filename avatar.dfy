/**
 * The career assistant: the persona object, its tool dispatcher and the
 * conversation loop that alternates between asking the chat-completion
 * service and running the tools it requests, plus the caller's history update.
 */
module Avatar {
  import opened Wrappers
  import opened Text
  import opened Protocol
  import opened Tools
  import opened Notifications
  import Persona

  /** The name the assistant plays. */
  const OwnerName: string := "Vikash Vishwakarma"

  /**
   * The chat-completion service as the completion it returns for a
   * conversation (always sent with the same model and tool definitions);
   * None when the request raises.
   */
  type Service = seq<Message> -> Option<Completion>

  /** What a turn comes to: the answer or the error, the conversation as last sent, and the notices pushed. */
  datatype Turn = Turn(outcome: Result<string, TurnError>, transcript: seq<Message>, pushes: seq<string>)

  /** The conversation a turn starts from: the system prompt, the history, then the new user message. */
  function Opening(prompt: string, history: seq<Message>, message: string): (m: seq<Message>)
    ensures |m| == |history| + 2
    ensures m[0] == System(prompt) && m[1..|m| - 1] == history && m[|m| - 1] == User(message)
  {
    [System(prompt)] + history + [User(message)]
  }

  /**
   * The turn from `messages` on, with at most `fuel` requests to the
   * service: a completion whose finish reason is not "tool_calls" ends it
   * with that completion's content; otherwise the tool calls are dispatched,
   * the assistant entry and then the replies are appended, and the service
   * is asked again.
   */
  function Converse(service: Service, messages: seq<Message>, fuel: nat): Turn
    decreases fuel
  {
    if fuel == 0 then Turn(Err(OutOfFuel), messages, [])
    else match service(messages)
      case None => Turn(Err(TransportFailure), messages, [])
      case Some(completion) =>
        if completion.finishReason != ToolCallsReason then Turn(Ok(completion.content), messages, [])
        else
          var batch := HandleAll(completion.toolCalls);
          match batch.outcome
          case Err(e) => Turn(Err(e), messages, batch.pushes)
          case Ok(replies) =>
            var rest := Converse(service, messages + [Assistant(completion.content, completion.toolCalls)] + replies, fuel - 1);
            Turn(rest.outcome, rest.transcript, batch.pushes + rest.pushes)
  }

  /** `t` with `earlier` pushed before its own notices. */
  function After(earlier: seq<string>, t: Turn): Turn
  {
    Turn(t.outcome, t.transcript, earlier + t.pushes)
  }

  // Associativity steps used by Me.Chat, kept as lemmas so that the loop's
  // own proof obligation stays small; they model nothing in the program.
  lemma Regroup(a: seq<string>, b: seq<string>, c: seq<string>)
    ensures a + b + c == a + (b + c)
  {
  }

  lemma AfterAfter(earlier: seq<string>, middle: seq<string>, t: Turn)
    ensures After(earlier, After(middle, t)) == After(earlier + middle, t)
  {
    assert earlier + (middle + t.pushes) == earlier + middle + t.pushes;
  }

  /** One request of a turn that asked for tools. */
  lemma UnfoldToolRound(service: Service, messages: seq<Message>, fuel: nat, completion: Completion)
    requires fuel > 0 && service(messages) == Some(completion) && completion.finishReason == ToolCallsReason
    ensures var batch := HandleAll(completion.toolCalls);
      Converse(service, messages, fuel)
        == if batch.outcome.Err? then Turn(Err(batch.outcome.error), messages, batch.pushes)
           else After(batch.pushes, Converse(service, messages + [Assistant(completion.content, completion.toolCalls)] + batch.outcome.value, fuel - 1))
  {
  }

  /** A completion that is not a tool request ends the turn at once: its content is the answer, and nothing is dispatched or pushed. */
  lemma FirstAnswerEndsTurn(service: Service, messages: seq<Message>, fuel: nat)
    requires fuel > 0 && service(messages).Some?
    requires service(messages).value.finishReason != ToolCallsReason
    ensures Converse(service, messages, fuel) == Turn(Ok(service(messages).value.content), messages, [])
  {
  }

  /** An answer is always the content of a completion that is not a tool request, given for the final conversation. */
  lemma {:induction false} AnswerComesFromFinalCompletion(service: Service, messages: seq<Message>, fuel: nat)
    requires Converse(service, messages, fuel).outcome.Ok?
    ensures var t := Converse(service, messages, fuel);
      && service(t.transcript).Some?
      && service(t.transcript).value.finishReason != ToolCallsReason
      && t.outcome.value == service(t.transcript).value.content
    decreases fuel
  {
    var completion := service(messages).value;
    if completion.finishReason == ToolCallsReason {
      var replies := HandleAll(completion.toolCalls).outcome.value;
      AnswerComesFromFinalCompletion(service, messages + [Assistant(completion.content, completion.toolCalls)] + replies, fuel - 1);
    }
  }

  /** The conversation only grows: the turn's final conversation extends the one it started from. */
  lemma {:induction false} ConversationOnlyGrows(service: Service, messages: seq<Message>, fuel: nat)
    ensures messages <= Converse(service, messages, fuel).transcript
    decreases fuel
  {
    if fuel > 0 && service(messages).Some? {
      var completion := service(messages).value;
      var batch := HandleAll(completion.toolCalls);
      if completion.finishReason == ToolCallsReason && batch.outcome.Ok? {
        var next := messages + [Assistant(completion.content, completion.toolCalls)] + batch.outcome.value;
        ConversationOnlyGrows(service, next, fuel - 1);
        assert messages <= next;
      }
    }
  }

  /** An answered tool request stays answered when the conversation around it is extended by entries that do not start with a tool entry. */
  lemma AnsweredInContext(pre: seq<Message>, msgs: seq<Message>, post: seq<Message>, i: int)
    requires 0 <= i < |msgs| && msgs[i].Assistant? && AnsweredAt(msgs, i)
    requires post != [] ==> !post[0].Tool?
    ensures (pre + msgs + post)[|pre| + i] == msgs[i]
    ensures AnsweredAt(pre + msgs + post, |pre| + i)
  {
    var m := pre + msgs + post;
    var k := |msgs[i].toolCalls|;
    var at := |pre| + i;
    assert m[at] == msgs[i];
    assert m[at + 1..at + 1 + k] == msgs[i + 1..i + 1 + k];
    if at + 1 + k < |m| {
      assert m[at + 1 + k] == if i + 1 + k < |msgs| then msgs[i + 1 + k] else post[0];
    }
  }

  /** Appending an assistant entry and one correlated reply per call keeps every tool request answered. */
  lemma RoundKeepsPairing(messages: seq<Message>, content: string, calls: seq<ToolCall>, replies: seq<Message>)
    requires WellPaired(messages)
    requires Answers(replies, calls)
    ensures WellPaired(messages + [Assistant(content, calls)] + replies)
  {
    var next := messages + [Assistant(content, calls)] + replies;
    forall i | IsRequest(next, i)
      ensures AnsweredAt(next, i)
    {
      if i < |messages| {
        assert next[i] == messages[i] && IsRequest(messages, i);
        AnsweredInContext([], messages, [Assistant(content, calls)] + replies, i);
        assert [] + messages + ([Assistant(content, calls)] + replies) == next;
      } else if i == |messages| {
        assert next[i + 1..i + 1 + |calls|] == replies;
      }
    }
  }

  /** A dispatched round keeps every tool request answered, so a well-paired conversation stays well paired for the whole turn. */
  lemma {:induction false} TurnKeepsPairing(service: Service, messages: seq<Message>, fuel: nat)
    requires WellPaired(messages)
    ensures WellPaired(Converse(service, messages, fuel).transcript)
    decreases fuel
  {
    if fuel > 0 && service(messages).Some? {
      var completion := service(messages).value;
      var batch := HandleAll(completion.toolCalls);
      if completion.finishReason == ToolCallsReason && batch.outcome.Ok? {
        RepliesCorrelate(completion.toolCalls);
        assert Answers(batch.outcome.value, completion.toolCalls);
        RoundKeepsPairing(messages, completion.content, completion.toolCalls, batch.outcome.value);
        TurnKeepsPairing(service, messages + [Assistant(completion.content, completion.toolCalls)] + batch.outcome.value, fuel - 1);
      }
    }
  }

  /** The opening conversation of a turn is well paired when the history is. */
  lemma OpeningKeepsPairing(prompt: string, history: seq<Message>, message: string)
    requires WellPaired(history)
    ensures WellPaired(Opening(prompt, history, message))
  {
    var m := Opening(prompt, history, message);
    forall i | IsRequest(m, i)
      ensures AnsweredAt(m, i)
    {
      assert m[i] == history[i - 1] && IsRequest(history, i - 1);
      AnsweredInContext([System(prompt)], history, [User(message)], i - 1);
    }
  }

  /** More requests never change a turn that ended without running out of them. */
  lemma {:induction false} MoreFuelSameTurn(service: Service, messages: seq<Message>, fuel: nat, more: nat)
    requires fuel <= more
    requires Converse(service, messages, fuel).outcome != Err(OutOfFuel)
    ensures Converse(service, messages, more) == Converse(service, messages, fuel)
    decreases fuel
  {
    if service(messages).Some? {
      var completion := service(messages).value;
      if completion.finishReason == ToolCallsReason && HandleAll(completion.toolCalls).outcome.Ok? {
        var replies := HandleAll(completion.toolCalls).outcome.value;
        MoreFuelSameTurn(service, messages + [Assistant(completion.content, completion.toolCalls)] + replies, fuel - 1, more - 1);
      }
    }
  }

  class Me {
    const name: string
    const experience: string
    const resume: string

    /**
     * The persona, from the resume's pages (each the text extracted from
     * it, if any) and the experience file's contents.
     */
    constructor (pages: seq<Option<string>>, experienceFile: string)
      ensures name == OwnerName && experience == experienceFile && resume == Persona.JoinPages(pages)
    {
      name := OwnerName;
      var text := Persona.AssembleResume(pages);
      resume := text;
      experience := experienceFile;
    }

    /** Dispatches a batch of tool calls in order, pushing each handler's notice as it runs. */
    method HandleToolCall(calls: seq<ToolCall>, sink: PushSink) returns (r: Result<seq<Message>, TurnError>)
      modifies sink
      ensures r == HandleAll(calls).outcome
      ensures sink.sent == old(sink.sent) + HandleAll(calls).pushes
    {
      var results: seq<Message> := [];
      for i := 0 to |calls|
        invariant HandleAll(calls[..i]).outcome == Ok(results)
        invariant sink.sent == old(sink.sent) + HandleAll(calls[..i]).pushes
      {
        assert calls[..i + 1][..i] == calls[..i];
        var call := calls[i];
        var result := Execute(call);
        if result.Err? {
          AbortIsFinal(calls, i + 1);
          return Err(result.error);
        }
        if result.value.notice.Some? {
          sink.Push(result.value.notice.value);
        }
        results := results + [Reply(call, result.value)];
      }
      assert calls[..|calls|] == calls;
      return Ok(results);
    }

    /**
     * One turn: answers `message` given `history`, asking `service` at most
     * `fuel` times and pushing the tools' notices to `sink`.
     */
    method Chat(message: string, history: seq<Message>, service: Service, fuel: nat, sink: PushSink)
      returns (r: Result<string, TurnError>)
      modifies sink
      ensures var t := Converse(service, Opening(Persona.SystemPrompt(name, experience, resume), history, message), fuel);
        r == t.outcome && sink.sent == old(sink.sent) + t.pushes
    {
      var prompt := Persona.SystemPrompt(name, experience, resume);
      var messages := [System(prompt)] + history + [User(message)];
      ghost var goal := Converse(service, messages, fuel);
      ghost var pushed: seq<string> := [];
      var remaining := fuel;
      var done := false;
      var answer := "";
      while !done
        invariant sink.sent == old(sink.sent) + pushed
        invariant !done ==> goal == After(pushed, Converse(service, messages, remaining))
        invariant done ==> goal == Turn(Ok(answer), messages, pushed)
        decreases remaining, !done
      {
        if remaining == 0 {
          return Err(OutOfFuel);
        }
        var reply := service(messages);
        if reply.None? {
          return Err(TransportFailure);
        }
        var response := reply.value;
        if response.finishReason == ToolCallsReason {
          ghost var batch := HandleAll(response.toolCalls).pushes;
          var results := HandleToolCall(response.toolCalls, sink);
          Regroup(old(sink.sent), pushed, batch);
          UnfoldToolRound(service, messages, remaining, response);
          if results.Err? {
            return Err(results.error);
          }
          messages := messages + [Assistant(response.content, response.toolCalls)];
          messages := messages + results.value;
          remaining := remaining - 1;
          AfterAfter(pushed, batch, Converse(service, messages, remaining));
          pushed := pushed + batch;
        } else {
          done := true;
          answer := response.content;
        }
      }
      return Ok(answer);
    }
  }

  /**
   * The chat widget's handler: runs the turn, then records the user message
   * and the answer in the history. A turn that raises leaves the history as it was.
   */
  method Respond(me: Me, message: string, history: seq<Message>, service: Service, fuel: nat, sink: PushSink)
    returns (r: Result<seq<Message>, TurnError>)
    modifies sink
    ensures var t := Converse(service, Opening(Persona.SystemPrompt(me.name, me.experience, me.resume), history, message), fuel);
      && sink.sent == old(sink.sent) + t.pushes
      && (r.Ok? <==> t.outcome.Ok?)
      && (r.Ok? ==> r.value == history + [User(message), Assistant(t.outcome.value, [])])
      && (r.Err? ==> r.error == t.outcome.error)
  {
    var answer := me.Chat(message, history, service, fuel, sink);
    if answer.Err? {
      return Err(answer.error);
    }
    var updated := history + [User(message)];
    updated := updated + [Assistant(answer.value, [])];
    return Ok(updated);
  }

  /** Appending an entry that is neither a tool reply nor a tool request keeps the conversation well paired. */
  lemma AppendPlainKeepsPairing(msgs: seq<Message>, entry: Message)
    requires WellPaired(msgs)
    requires !entry.Tool? && (entry.Assistant? ==> entry.toolCalls == [])
    ensures WellPaired(msgs + [entry])
  {
    var m := msgs + [entry];
    forall i | IsRequest(m, i)
      ensures AnsweredAt(m, i)
    {
      if i < |msgs| {
        assert m[i] == msgs[i] && IsRequest(msgs, i);
        AnsweredInContext([], msgs, [entry], i);
        assert [] + msgs + [entry] == m;
      } else {
        assert m[i + 1..i + 1] == [];
      }
    }
  }

  /** Recording a finished turn keeps the history well paired. */
  lemma CommitKeepsPairing(history: seq<Message>, message: string, answer: string)
    requires WellPaired(history)
    ensures WellPaired(history + [User(message), Assistant(answer, [])])
  {
    AppendPlainKeepsPairing(history, User(message));
    AppendPlainKeepsPairing(history + [User(message)], Assistant(answer, []));
    assert history + [User(message)] + [Assistant(answer, [])] == history + [User(message), Assistant(answer, [])];
  }

  /** A service that asks once to record the visitor's email, then answers. */
  function EmailScript(messages: seq<Message>): Option<Completion>
  {
    if |messages| == 2 then
      Some(Completion(ToolCallsReason, "", [ToolCall("call_1", UserDetailsTool, Object(map["email" := "a@b.com"]))]))
    else
      Some(Completion("stop", "Thanks, I will be in touch.", []))
  }

  /**
   * The email scenario: a first turn whose message gives an email makes
   * exactly one push naming that email, and ends with the service's answer.
   */
  lemma EmailScenario(prompt: string, fuel: nat)
    requires fuel >= 2
    ensures var t := Converse(EmailScript, Opening(prompt, [], "My email is a@b.com, please reach out"), fuel);
      && t.outcome == Ok("Thanks, I will be in touch.")
      && |t.pushes| == 1
      && Contains(t.pushes[0], "a@b.com")
  {
    var opening := Opening(prompt, [], "My email is a@b.com, please reach out");
    var call := ToolCall("call_1", UserDetailsTool, Object(map["email" := "a@b.com"]));
    var inv := RecordUserDetails("a@b.com");
    assert Execute(call) == Ok(inv);
    var calls := [call];
    assert calls[..0] == [] && calls[0] == call;
    assert HandleAll(calls[..0]) == Batch(Ok([]), []);
    assert Notices(inv) == [inv.notice.value];
    assert calls != [] && calls[..|calls| - 1] == [] && calls[|calls| - 1] == call;
    assert Execute(calls[|calls| - 1]) == Ok(inv);
    assert [] + [Reply(call, inv)] == [Reply(call, inv)];
    assert HandleAll(calls).outcome == Ok([Reply(call, inv)]);
    assert HandleAll(calls).pushes == [inv.notice.value];
    assert HandleAll(calls) == Batch(Ok([Reply(call, inv)]), [inv.notice.value]);
    var t := Converse(EmailScript, opening, 2);
    assert t.pushes == [inv.notice.value];
    MoreFuelSameTurn(EmailScript, opening, 2, fuel);
  }
}
