/**
 * One chat turn of the agent, as values: store the user message, read the
 * history, build the context, ask the model, store and return the reply.
 * ChatAgent.Chat in module Agent is proved to have exactly this effect.
 */
module Turn {
  import opened Wrappers
  import opened History

  /** The persona sent as the first message of every context. */
  const SystemPrompt: string :=
    "You are a helpful assistant powered by Cloudflare Agents and Llama 3.3. You are concise and friendly."

  /** The text-generation model every turn asks. */
  const ModelName: string := "@cf/meta/llama-3.3-70b-instruct-fp8-fast"

  /** The value `reply` holds before the inference step assigns it. */
  const DefaultReply: string := "Error generating response."

  /** What the agent asks of the model: a model name and an ordered context of messages. */
  datatype AiRequest = AiRequest(model: string, messages: seq<Entry>)

  /**
   * What the model returned: its `response` field, when it holds text, and
   * the serialisation of the whole returned value (its JSON text).
   */
  datatype AiResult = AiResult(response: Option<string>, serialized: string)

  /** The inference step either returns a result or throws an error with a description. */
  datatype Outcome = Returned(result: AiResult) | Threw(description: string)

  /** Which storage statement of a turn throws, if any, and the description of the error. */
  datatype Fault =
    | NoFault
    | UserInsertFails(description: string)
    | HistoryReadFails(description: string)
    | ReplyInsertFails(description: string)

  /** A result together with the table's rows after the step that produced it. */
  datatype Effect<R> = Effect(result: R, log: seq<Row>)

  function SystemMessage(): Entry
  {
    Entry(System, Some(SystemPrompt))
  }

  /** The context of a turn: the system message, then the whole history. */
  function ContextWindow(history: seq<Entry>): (c: seq<Entry>)
    ensures |c| == |history| + 1
    ensures c[0] == SystemMessage()
    ensures forall i :: 0 <= i < |history| ==> c[i + 1] == history[i]
  {
    [SystemMessage()] + history
  }

  /** JavaScript truthiness of the `response` field: present and not the empty string. */
  predicate Truthy(field: Option<string>)
  {
    field.Some? && field.value != ""
  }

  /**
   * The reply picked from what the model returned: its `response` field when
   * that is truthy, otherwise the serialisation of the whole result, so an
   * empty `response` falls back to the serialisation too.
   */
  function SelectReply(res: AiResult): (reply: string)
    ensures Truthy(res.response) ==> reply == res.response.value
    ensures !Truthy(res.response) ==> reply == res.serialized
    ensures res.response == Some("") ==> reply == res.serialized
  {
    if Truthy(res.response) then res.response.value else res.serialized
  }

  /**
   * The reply a turn stores and returns for an inference outcome; a thrown
   * error becomes the text "Error: " followed by its description.
   */
  function Reply(o: Outcome): (reply: string)
    ensures o.Threw? ==> reply == "Error: " + o.description
    ensures o.Returned? ==> reply == SelectReply(o.result)
  {
    match o
    case Returned(res) => SelectReply(res)
    case Threw(description) => "Error: " + description
  }

  /** The two rows one completed turn appends: the user's message, then the reply. */
  function TurnRows(message: Option<string>, reply: string, userTime: int, replyTime: int): seq<Row>
  {
    [Row(User, message, userTime), Row(Assistant, Some(reply), replyTime)]
  }

  /** The request a turn sends: the context built from the history read right after the user row is stored. */
  function RequestFor(log: seq<Row>, message: Option<string>, userTime: int): AiRequest
  {
    AiRequest(ModelName, ContextWindow(GetHistory(log + [Row(User, message, userTime)])))
  }

  /**
   * One chat turn on `log`, as a value: the specification of ChatAgent.Chat.
   * The inference step is the function `infer`; the clock readings and the
   * storage faults are parameters.
   */
  function ChatEffect(log: seq<Row>, message: Option<string>, infer: AiRequest -> Outcome,
                      userTime: int, replyTime: int, fault: Fault): (e: Effect<Result<string>>)
    ensures fault.NoFault? <==> e.result.Success?
    ensures fault.NoFault? ==>
      e.log == log + TurnRows(message, e.result.value, userTime, replyTime)
    ensures fault.NoFault? ==> e.result.value == Reply(infer(RequestFor(log, message, userTime)))
    ensures fault.UserInsertFails? ==> e.log == log
    ensures fault.HistoryReadFails? || fault.ReplyInsertFails? ==> e.log == log + [Row(User, message, userTime)]
    ensures !fault.NoFault? ==> e.result.error == fault.description
  {
    var userRow := Row(User, message, userTime);
    match fault
    case UserInsertFails(d) => Effect(Failure(d), log)
    case HistoryReadFails(d) => Effect(Failure(d), log + [userRow])
    case ReplyInsertFails(d) => Effect(Failure(d), log + [userRow])
    case NoFault =>
      var reply := Reply(infer(RequestFor(log, message, userTime)));
      Effect(Success(reply), log + [userRow, Row(Assistant, Some(reply), replyTime)])
  }

  /**
   * The turn never loses rows: whatever fails, the old log is a prefix of the
   * new one, and the stored reply is the returned one.
   */
  lemma ChatKeepsEarlierRows(log: seq<Row>, message: Option<string>, infer: AiRequest -> Outcome,
                             userTime: int, replyTime: int, fault: Fault)
    ensures var e := ChatEffect(log, message, infer, userTime, replyTime, fault);
      |log| <= |e.log| <= |log| + 2 && e.log[..|log|] == log
    ensures var e := ChatEffect(log, message, infer, userTime, replyTime, fault);
      e.result.Success? ==> e.log[|e.log| - 1] == Row(Assistant, Some(e.result.value), replyTime)
  {
  }

  /**
   * An inference step that throws does not make the turn fail: the error
   * text is stored as the assistant's row and returned.
   */
  lemma InferenceFailureContained(log: seq<Row>, message: Option<string>, infer: AiRequest -> Outcome,
                                  userTime: int, replyTime: int, description: string)
    requires infer(RequestFor(log, message, userTime)) == Threw(description)
    ensures ChatEffect(log, message, infer, userTime, replyTime, NoFault)
      == Effect(Success("Error: " + description),
                log + TurnRows(message, "Error: " + description, userTime, replyTime))
  {
  }

  /** The clock never went backwards: the log is ordered and `t` is not earlier than its last row. */
  ghost predicate ClockAfter(log: seq<Row>, t: int)
  {
    Sorted(log) && (log != [] ==> log[|log| - 1].timestamp <= t)
  }

  lemma AppendKeepsSorted(log: seq<Row>, r: Row)
    requires ClockAfter(log, r.timestamp)
    ensures Sorted(log + [r])
  {
  }

  /**
   * With a clock that never goes backwards, the context of a turn is the
   * system message, then every stored row in insertion order, ending with the
   * message just stored. Among rows with equal timestamps this is the order
   * the model's query picks; ContextUnderStrictClock holds for every order
   * the SQL query may return.
   */
  lemma ContextIsWholeLog(log: seq<Row>, message: Option<string>, userTime: int)
    requires ClockAfter(log, userTime)
    ensures RequestFor(log, message, userTime).model == ModelName
    ensures RequestFor(log, message, userTime).messages
      == [SystemMessage()] + Project(log) + [Entry(User, message)]
  {
    HistoryAfterAppend(log, Row(User, message, userTime));
    RequestOfHistory(log, message, userTime);
  }

  /** The request of a turn whose history read gives the old log followed by the user message. */
  lemma RequestOfHistory(log: seq<Row>, message: Option<string>, userTime: int)
    requires GetHistory(log + [Row(User, message, userTime)]) == Project(log) + [Entry(User, message)]
    ensures RequestFor(log, message, userTime)
      == AiRequest(ModelName, [SystemMessage()] + Project(log) + [Entry(User, message)])
  {
    var h := GetHistory(log + [Row(User, message, userTime)]);
    assert RequestFor(log, message, userTime) == AiRequest(ModelName, [SystemMessage()] + h);
    AppendAssociates([SystemMessage()], Project(log), [Entry(User, message)]);
  }

  /**
   * Sequence concatenation associates. Kept apart so that the extensionality
   * proof runs without the history and context axioms in scope.
   */
  lemma AppendAssociates(a: seq<Entry>, b: seq<Entry>, c: seq<Entry>)
    ensures a + (b + c) == a + b + c
  {
  }

  /**
   * Reading the history right after storing `r` gives the ordered log followed
   * by `r`, for the model's query, which keeps insertion order among ties.
   */
  lemma HistoryAfterAppend(log: seq<Row>, r: Row)
    requires ClockAfter(log, r.timestamp)
    ensures GetHistory(log + [r]) == Project(log) + [Entry(r.role, r.content)]
  {
    AppendKeepsSorted(log, r);
    HistoryOfSortedLog(log + [r]);
    ProjectSnoc(log, r);
  }

  /**
   * With a strictly increasing clock, whichever order the SQL query returns
   * the rows in, the context is the system message, then every stored row in
   * insertion order, ending with the message just stored.
   */
  lemma ContextUnderStrictClock(log: seq<Row>, message: Option<string>, userTime: int, out: seq<Row>)
    requires StrictlySorted(log + [Row(User, message, userTime)])
    requires AdmissibleOrder(log + [Row(User, message, userTime)], out)
    ensures ContextWindow(Project(out)) == [SystemMessage()] + Project(log) + [Entry(User, message)]
  {
    StrictOrderIsUnique(log + [Row(User, message, userTime)], out);
    ProjectSnoc(log, Row(User, message, userTime));
  }

  /** On a fresh table the first turn's context is the system message and the user's message, nothing else. */
  lemma FirstTurnContext(message: Option<string>, userTime: int)
    ensures RequestFor([], message, userTime).messages == [SystemMessage(), Entry(User, message)]
  {
    ContextIsWholeLog([], message, userTime);
  }

  /** A turn whose clock readings do not go backwards keeps the log in timestamp order. */
  lemma ChatKeepsOrder(log: seq<Row>, message: Option<string>, infer: AiRequest -> Outcome,
                       userTime: int, replyTime: int, fault: Fault)
    requires ClockAfter(log, userTime) && userTime <= replyTime
    ensures Sorted(ChatEffect(log, message, infer, userTime, replyTime, fault).log)
  {
  }

  /** The inputs of one turn. */
  datatype TurnInput = TurnInput(message: Option<string>, userTime: int, replyTime: int, fault: Fault)

  /** Turns run one after another on the same log, as the platform runs them for one agent. */
  function Conversation(log: seq<Row>, turns: seq<TurnInput>, infer: AiRequest -> Outcome): (e: Effect<seq<Result<string>>>)
    ensures |e.result| == |turns|
    decreases turns
  {
    if turns == [] then Effect([], log)
    else
      var first := ChatEffect(log, turns[0].message, infer, turns[0].userTime, turns[0].replyTime, turns[0].fault);
      var rest := Conversation(first.log, turns[1..], infer);
      Effect([first.result] + rest.result, rest.log)
  }

  /** Turn `t`, which produced `r`, is recorded in `log` at positions `at` and `at + 1`. */
  ghost predicate RecordedAt(log: seq<Row>, at: int, t: TurnInput, r: Result<string>)
  {
    && 0 <= at && at + 1 < |log|
    && r.Success?
    && log[at] == Row(User, t.message, t.userTime)
    && log[at + 1] == Row(Assistant, Some(r.value), t.replyTime)
  }

  /**
   * After k turns without storage faults, the log holds the old rows and
   * exactly 2k new ones: turn i's user message at position 2i of the new
   * part and its reply right after it.
   */
  lemma {:induction false} ConversationShape(log: seq<Row>, turns: seq<TurnInput>, infer: AiRequest -> Outcome)
    requires forall i :: 0 <= i < |turns| ==> turns[i].fault.NoFault?
    decreases turns
    ensures var e := Conversation(log, turns, infer);
      && |e.log| == |log| + 2 * |turns|
      && e.log[..|log|] == log
      && forall i :: 0 <= i < |turns| ==> RecordedAt(e.log, |log| + 2 * i, turns[i], e.result[i])
  {
    if turns != [] {
      var t := turns[0];
      var first := ChatEffect(log, t.message, infer, t.userTime, t.replyTime, t.fault);
      var rest := Conversation(first.log, turns[1..], infer);
      ConversationShape(first.log, turns[1..], infer);
      assert Conversation(log, turns, infer) == Effect([first.result] + rest.result, rest.log);
      ShapeAfterFirstTurn(log, turns, first.log, first.result, rest.log, rest.result);
    }
  }

  /** The induction step of ConversationShape: the later turns' positions shift by the first turn's two rows. */
  lemma ShapeAfterFirstTurn(log: seq<Row>, turns: seq<TurnInput>, firstLog: seq<Row>, firstResult: Result<string>,
                            finalLog: seq<Row>, laterResults: seq<Result<string>>)
    requires turns != [] && firstResult.Success?
    requires firstLog == log + TurnRows(turns[0].message, firstResult.value, turns[0].userTime, turns[0].replyTime)
    requires |finalLog| == |firstLog| + 2 * (|turns| - 1) && finalLog[..|firstLog|] == firstLog
    requires |laterResults| == |turns| - 1
    requires forall j :: 0 <= j < |turns| - 1 ==> RecordedAt(finalLog, |firstLog| + 2 * j, turns[1..][j], laterResults[j])
    ensures |finalLog| == |log| + 2 * |turns| && finalLog[..|log|] == log
    ensures forall i :: 0 <= i < |turns| ==> RecordedAt(finalLog, |log| + 2 * i, turns[i], ([firstResult] + laterResults)[i])
  {
  }

  /** Every row in an even position is the user's, every row in an odd position the assistant's. */
  ghost predicate Alternating(log: seq<Row>)
  {
    |log| % 2 == 0 && forall i :: 0 <= i < |log| ==> log[i].role == (if i % 2 == 0 then User else Assistant)
  }

  /** If the log alternates user and assistant rows, it still does after any number of fault-free turns. */
  lemma ConversationAlternates(log: seq<Row>, turns: seq<TurnInput>, infer: AiRequest -> Outcome)
    requires Alternating(log)
    requires forall i :: 0 <= i < |turns| ==> turns[i].fault.NoFault?
    ensures Alternating(Conversation(log, turns, infer).log)
  {
    ConversationShape(log, turns, infer);
    var e := Conversation(log, turns, infer);
    AlternatingWhenRecorded(log, e.log, turns, e.result);
  }

  /** An alternating log followed by recorded turns, two rows each, alternates. */
  lemma AlternatingWhenRecorded(log: seq<Row>, final: seq<Row>, turns: seq<TurnInput>, results: seq<Result<string>>)
    requires Alternating(log)
    requires |results| == |turns| && |final| == |log| + 2 * |turns| && final[..|log|] == log
    requires forall k :: 0 <= k < |turns| ==> RecordedAt(final, |log| + 2 * k, turns[k], results[k])
    ensures Alternating(final)
  {
    forall i | 0 <= i < |final| ensures final[i].role == (if i % 2 == 0 then User else Assistant) {
      if i < |log| {
        assert final[i] == final[..|log|][i];
      } else {
        var k := (i - |log|) / 2;
        assert RecordedAt(final, |log| + 2 * k, turns[k], results[k]);
      }
    }
  }
  /**
   * Clock readings of a run of turns that never go backwards: the log is in
   * timestamp order, the first turn reads the clock no earlier than the last
   * row, each reply is stamped no earlier than its question and each turn
   * starts no earlier than the previous reply.
   */
  ghost predicate ClockRuns(log: seq<Row>, turns: seq<TurnInput>)
  {
    && Sorted(log)
    && (turns != [] ==> ClockAfter(log, turns[0].userTime))
    && (forall i :: 0 <= i < |turns| ==> turns[i].userTime <= turns[i].replyTime)
    && (forall i :: 0 <= i < |turns| - 1 ==> turns[i].replyTime <= turns[i + 1].userTime)
  }

  /** The same, for a clock that never repeats a reading. */
  ghost predicate StrictClockRuns(log: seq<Row>, turns: seq<TurnInput>)
  {
    && StrictlySorted(log)
    && (turns != [] && log != [] ==> log[|log| - 1].timestamp < turns[0].userTime)
    && (forall i :: 0 <= i < |turns| ==> turns[i].userTime < turns[i].replyTime)
    && (forall i :: 0 <= i < |turns| - 1 ==> turns[i].replyTime < turns[i + 1].userTime)
  }

  /** One turn, whatever fails, leaves the log ordered and no later than any reading after its reply. */
  lemma ChatKeepsClock(log: seq<Row>, message: Option<string>, infer: AiRequest -> Outcome,
                       userTime: int, replyTime: int, fault: Fault, next: int)
    requires ClockAfter(log, userTime) && userTime <= replyTime && replyTime <= next
    ensures ClockAfter(ChatEffect(log, message, infer, userTime, replyTime, fault).log, next)
  {
    var e := ChatEffect(log, message, infer, userTime, replyTime, fault);
    var u := Row(User, message, userTime);
    AppendKeepsSorted(log, u);
    if fault.NoFault? {
      var a := Row(Assistant, Some(e.result.value), replyTime);
      AppendKeepsSorted(log + [u], a);
      assert e.log == log + [u] + [a];
    }
  }

  /** One turn, whatever fails, keeps a strictly ordered log strictly ordered and earlier than the next reading. */
  lemma ChatKeepsStrictClock(log: seq<Row>, message: Option<string>, infer: AiRequest -> Outcome,
                             userTime: int, replyTime: int, fault: Fault, next: int)
    requires StrictlySorted(log) && (log != [] ==> log[|log| - 1].timestamp < userTime)
    requires userTime < replyTime && replyTime < next
    ensures var after := ChatEffect(log, message, infer, userTime, replyTime, fault).log;
      StrictlySorted(after) && (after != [] ==> after[|after| - 1].timestamp < next)
  {
    var e := ChatEffect(log, message, infer, userTime, replyTime, fault);
    var u := Row(User, message, userTime);
    StrictAppend(log, u);
    if fault.NoFault? {
      var a := Row(Assistant, Some(e.result.value), replyTime);
      StrictAppend(log + [u], a);
      assert e.log == log + [u] + [a];
    }
  }

  /** Appending a row later than the last keeps a log strictly ordered. */
  lemma StrictAppend(log: seq<Row>, r: Row)
    requires StrictlySorted(log) && (log != [] ==> log[|log| - 1].timestamp < r.timestamp)
    ensures StrictlySorted(log + [r])
  {
  }

  /** A run of turns whose clock never goes backwards leaves the log in timestamp order, whatever fails. */
  lemma {:induction false} ConversationKeepsOrder(log: seq<Row>, turns: seq<TurnInput>, infer: AiRequest -> Outcome)
    requires ClockRuns(log, turns)
    ensures Sorted(Conversation(log, turns, infer).log)
    decreases turns
  {
    if turns != [] {
      var t := turns[0];
      var first := ChatEffect(log, t.message, infer, t.userTime, t.replyTime, t.fault);
      if |turns| > 1 {
        ChatKeepsClock(log, t.message, infer, t.userTime, t.replyTime, t.fault, turns[1].userTime);
      } else {
        ChatKeepsOrder(log, t.message, infer, t.userTime, t.replyTime, t.fault);
      }
      assert ClockRuns(first.log, turns[1..]) by {
        forall i | 0 <= i < |turns[1..]| - 1 ensures turns[1..][i].replyTime <= turns[1..][i + 1].userTime {
          assert turns[1..][i] == turns[i + 1] && turns[1..][i + 1] == turns[i + 2];
        }
      }
      ConversationKeepsOrder(first.log, turns[1..], infer);
    }
  }

  /** A run of turns with a clock that never repeats leaves the log strictly ordered, whatever fails. */
  lemma {:induction false} ConversationKeepsStrictOrder(log: seq<Row>, turns: seq<TurnInput>, infer: AiRequest -> Outcome)
    requires StrictClockRuns(log, turns)
    ensures StrictlySorted(Conversation(log, turns, infer).log)
    decreases turns
  {
    if turns != [] {
      var t := turns[0];
      var first := ChatEffect(log, t.message, infer, t.userTime, t.replyTime, t.fault);
      var next := if |turns| > 1 then turns[1].userTime else t.replyTime + 1;
      ChatKeepsStrictClock(log, t.message, infer, t.userTime, t.replyTime, t.fault, next);
      assert StrictClockRuns(first.log, turns[1..]) by {
        forall i | 0 <= i < |turns[1..]| - 1 ensures turns[1..][i].replyTime < turns[1..][i + 1].userTime {
          assert turns[1..][i] == turns[i + 1] && turns[1..][i + 1] == turns[i + 2];
        }
      }
      ConversationKeepsStrictOrder(first.log, turns[1..], infer);
    }
  }

  /**
   * After a run of turns whose clock never goes backwards, getHistory returns
   * every stored row in insertion order; without storage faults that is the
   * old history, then turn i's message at 2i of the new part and its reply
   * at 2i + 1.
   */
  lemma ConversationHistory(log: seq<Row>, turns: seq<TurnInput>, infer: AiRequest -> Outcome)
    requires ClockRuns(log, turns)
    ensures var e := Conversation(log, turns, infer);
      GetHistory(e.log) == Project(e.log)
    ensures (forall i :: 0 <= i < |turns| ==> turns[i].fault.NoFault?) ==>
      var e := Conversation(log, turns, infer);
      var h := GetHistory(e.log);
      && |h| == |log| + 2 * |turns|
      && h[..|log|] == Project(log)
      && forall i :: 0 <= i < |turns| ==>
           && e.result[i].Success?
           && h[|log| + 2 * i] == Entry(User, turns[i].message)
           && h[|log| + 2 * i + 1] == Entry(Assistant, Some(e.result[i].value))
  {
    var e := Conversation(log, turns, infer);
    ConversationKeepsOrder(log, turns, infer);
    HistoryOfSortedLog(e.log);
    if forall i :: 0 <= i < |turns| ==> turns[i].fault.NoFault? {
      ConversationShape(log, turns, infer);
      ProjectRecorded(log, e.log, turns, e.result);
    }
  }

  /** The projection of an old log followed by recorded turns. */
  lemma ProjectRecorded(log: seq<Row>, final: seq<Row>, turns: seq<TurnInput>, results: seq<Result<string>>)
    requires |results| == |turns| && |final| == |log| + 2 * |turns| && final[..|log|] == log
    requires forall k :: 0 <= k < |turns| ==> RecordedAt(final, |log| + 2 * k, turns[k], results[k])
    ensures var h := Project(final);
      && |h| == |log| + 2 * |turns|
      && h[..|log|] == Project(log)
      && forall i :: 0 <= i < |turns| ==>
           && results[i].Success?
           && h[|log| + 2 * i] == Entry(User, turns[i].message)
           && h[|log| + 2 * i + 1] == Entry(Assistant, Some(results[i].value))
  {
    var h := Project(final);
    assert h[..|log|] == Project(log) by {
      forall i | 0 <= i < |log| ensures h[..|log|][i] == Project(log)[i] {
        assert final[i] == final[..|log|][i];
      }
    }
  }

  /**
   * After a run of turns with a clock that never repeats, every order the
   * SQL query may return is the stored log in insertion order.
   */
  lemma ConversationHistoryUnderStrictClock(log: seq<Row>, turns: seq<TurnInput>, infer: AiRequest -> Outcome,
                                            out: seq<Row>)
    requires StrictClockRuns(log, turns)
    requires AdmissibleOrder(Conversation(log, turns, infer).log, out)
    ensures out == Conversation(log, turns, infer).log
  {
    ConversationKeepsStrictOrder(log, turns, infer);
    StrictOrderIsUnique(Conversation(log, turns, infer).log, out);
  }
}
