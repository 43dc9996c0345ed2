/** Calls of the language model: the two-counter retry loop, the fallback model, and the
    reviewers that ask twice (synthesizer.rs). */
module ModelCall {
  import opened Wrappers
  import opened AgentTypes
  import opened ToolCalls
  import opened Text

  const MODEL_CONTEXT_LIMIT: nat := 1024 * 1024
  const MODEL_PROTOCOL_RETRIES: nat := 1
  const PROVIDER_RETRIES: nat := 3

  datatype VerdictKind = SaysImplementationWrong | SaysOracleWrong | SaysAmbiguous

  /** The arguments of a submitted review or verdict, where they decode. */
  datatype Arguments =
    | ReviewArguments(review: Review)
    | VerdictArguments(kind: VerdictKind, reason: string, stdout: Option<string>, exitCode: Option<int>)
    | OtherArguments

  datatype Content = TextContent(text: string) | ToolCallContent(name: string, arguments: Arguments)

  /** Corrective is the fixed reminder to call a tool. */
  datatype Message = UserMessage(text: string) | Corrective | AssistantMessage(choice: seq<Content>)

  datatype Exchange = Exchange(prompt: Message, history: seq<Message>)

  datatype ProviderReply = Answered(choice: seq<Content>, usage: nat) | ProviderError(retryable: bool) | TimedOut

  datatype CallFailure = ContextLimit(bytes: nat) | ModelFailed | ModelTimeout | InvalidReply

  datatype Choice = Choice(choice: seq<Content>, usage: nat)

  /** The provider: how large a request is, and what the n-th request of a call is answered. */
  datatype Provider = Provider(size: Exchange -> nat, reply: nat -> ProviderReply)

  predicate HasToolCall(choice: seq<Content>) {
    exists c | c in choice :: c.ToolCallContent?
  }

  /** What a call came to, and the requests it sent, in order. */
  datatype Report = Report(result: Result<Choice, CallFailure>, sent: seq<Exchange>)

  // ---------------------------------------------------------------- the loop as a recursion

  function CallFrom(p: Provider, retry: bool, e: Exchange, provider: nat, protocol: nat, usage: nat, sent: seq<Exchange>): Report
    requires provider <= PROVIDER_RETRIES && protocol <= MODEL_PROTOCOL_RETRIES
    decreases MODEL_PROTOCOL_RETRIES - protocol, PROVIDER_RETRIES - provider
  {
    if p.size(e) > MODEL_CONTEXT_LIMIT then Report(Failure(ContextLimit(p.size(e))), sent)
    else
      var reply, sent' := p.reply(|sent|), sent + [e];
      match reply
      case Answered(choice, cost) =>
        if !HasToolCall(choice) && protocol < MODEL_PROTOCOL_RETRIES then
          CallFrom(p, retry, Exchange(Corrective, e.history + [e.prompt, AssistantMessage(choice)]), 0, protocol + 1,
                   usage + cost, sent')
        else Report(Success(Choice(choice, usage + cost)), sent')
      case ProviderError(retryable) =>
        if retry && provider < PROVIDER_RETRIES && retryable then CallFrom(p, retry, e, provider + 1, protocol, usage, sent')
        else Report(Failure(ModelFailed), sent')
      case TimedOut =>
        if retry && provider < PROVIDER_RETRIES then CallFrom(p, retry, e, provider + 1, protocol, usage, sent')
        else Report(Failure(ModelTimeout), sent')
  }

  function Call(p: Provider, retry: bool, e: Exchange): Report {
    CallFrom(p, retry, e, 0, 0, 0, [])
  }

  method CallModel(p: Provider, retry: bool, e: Exchange)
    returns (r: Report)
    ensures r == Call(p, retry, e)
  {
    var providerAttempt, protocolAttempt := 0, 0;
    var request := e;
    var usage := 0;
    var sent := [];
    while true
      invariant providerAttempt <= PROVIDER_RETRIES && protocolAttempt <= MODEL_PROTOCOL_RETRIES
      invariant CallFrom(p, retry, request, providerAttempt, protocolAttempt, usage, sent) == Call(p, retry, e)
      decreases MODEL_PROTOCOL_RETRIES - protocolAttempt, PROVIDER_RETRIES - providerAttempt
    {
      var contextSize := p.size(request);
      if contextSize > MODEL_CONTEXT_LIMIT { return Report(Failure(ContextLimit(contextSize)), sent); }
      var reply := p.reply(|sent|);
      sent := sent + [request];
      match reply {
        case Answered(choice, cost) =>
          usage := usage + cost;
          if HasToolCall(choice) || protocolAttempt >= MODEL_PROTOCOL_RETRIES { return Report(Success(Choice(choice, usage)), sent); }
          protocolAttempt := protocolAttempt + 1;
          providerAttempt := 0;
          request := Exchange(Corrective, request.history + [request.prompt, AssistantMessage(choice)]);
        case ProviderError(retryable) =>
          if !retry || providerAttempt >= PROVIDER_RETRIES || !retryable { return Report(Failure(ModelFailed), sent); }
          providerAttempt := providerAttempt + 1;
        case TimedOut =>
          if !retry || providerAttempt >= PROVIDER_RETRIES { return Report(Failure(ModelTimeout), sent); }
          providerAttempt := providerAttempt + 1;
      }
    }
  }

  // ---------------------------------------------------------------- what the loop keeps

  /** The usage of the first n answers received. */
  function UsageOf(p: Provider, n: nat): nat {
    if n == 0 then 0 else UsageOf(p, n - 1) + match p.reply(n - 1) case Answered(_, cost) => cost case _ => 0
  }

  /** The requests the loop may still send. */
  function Allowance(retry: bool, provider: nat, protocol: nat): int {
    if retry then (MODEL_PROTOCOL_RETRIES - protocol) * (PROVIDER_RETRIES + 1) + PROVIDER_RETRIES - provider + 1
    else MODEL_PROTOCOL_RETRIES - protocol + 1
  }

  ghost predicate WithinContext(p: Provider, sent: seq<Exchange>) {
    forall i | 0 <= i < |sent| :: p.size(sent[i]) <= MODEL_CONTEXT_LIMIT
  }

  /** The next request repeats the last one, or follows a reply without a tool call: then it
      carries the whole conversation so far, that reply included, and the corrective prompt. */
  predicate Follows(reply: ProviderReply, last: Exchange, next: Exchange) {
    match reply
    case Answered(choice, _) =>
      !HasToolCall(choice) && next == Exchange(Corrective, last.history + [last.prompt, AssistantMessage(choice)])
    case _ => next == last
  }

  ghost predicate Conversation(p: Provider, sent: seq<Exchange>) {
    forall i | 0 <= i < |sent| - 1 :: Follows(p.reply(i), sent[i], sent[i + 1])
  }

  ghost predicate Continues(p: Provider, sent: seq<Exchange>, next: Exchange) {
    sent != [] ==> Follows(p.reply(|sent| - 1), sent[|sent| - 1], next)
  }

  lemma ConversationGrows(p: Provider, sent: seq<Exchange>, e: Exchange)
    requires Conversation(p, sent) && Continues(p, sent, e)
    ensures Conversation(p, sent + [e])
    ensures forall next :: Continues(p, sent + [e], next) <==> Follows(p.reply(|sent|), e, next)
  {
    assert (sent + [e])[|sent|] == e;
  }

  lemma {:induction false} CallFromKeeps(p: Provider, retry: bool, e: Exchange, provider: nat, protocol: nat, usage: nat,
                                         sent: seq<Exchange>)
    requires provider <= PROVIDER_RETRIES && protocol <= MODEL_PROTOCOL_RETRIES
    requires usage == UsageOf(p, |sent|) && WithinContext(p, sent)
    ensures var r := CallFrom(p, retry, e, provider, protocol, usage, sent);
            && |sent| <= |r.sent| <= |sent| + Allowance(retry, provider, protocol)
            && WithinContext(p, r.sent)
            && (r.result.Success? ==> r.result.value.usage == UsageOf(p, |r.sent|))
    decreases MODEL_PROTOCOL_RETRIES - protocol, PROVIDER_RETRIES - provider
  {
    if p.size(e) <= MODEL_CONTEXT_LIMIT {
      var reply, sent' := p.reply(|sent|), sent + [e];
      match reply
      case Answered(choice, cost) =>
        if !HasToolCall(choice) && protocol < MODEL_PROTOCOL_RETRIES {
          CallFromKeeps(p, retry, Exchange(Corrective, e.history + [e.prompt, AssistantMessage(choice)]), 0, protocol + 1,
                        usage + cost, sent');
        }
      case ProviderError(retryable) =>
        if retry && provider < PROVIDER_RETRIES && retryable { CallFromKeeps(p, retry, e, provider + 1, protocol, usage, sent'); }
      case TimedOut =>
        if retry && provider < PROVIDER_RETRIES { CallFromKeeps(p, retry, e, provider + 1, protocol, usage, sent'); }
    }
  }

  /** A call sends at most eight requests with provider retries and two without, all of them
      within the context limit, and reports the usage of every answer it received. */
  lemma CallIsBounded(p: Provider, retry: bool, e: Exchange)
    ensures var r := Call(p, retry, e);
            && |r.sent| <= (if retry then 8 else 2)
            && WithinContext(p, r.sent)
            && (r.result.Success? ==> r.result.value.usage == UsageOf(p, |r.sent|))
            && Conversation(p, r.sent) && (r.sent != [] <==> p.size(e) <= MODEL_CONTEXT_LIMIT)
  {
    CallFromKeeps(p, retry, e, 0, 0, 0, []);
    CallFromEnds(p, retry, e, e, 0, 0, 0, []);
  }

  // ---------------------------------------------------------------- how a call ends

  /** None of these four replies in a row is an answer. */
  predicate FourFailures(p: Provider, n: nat) {
    n >= 4 && forall i | n - 4 <= i < n :: !p.reply(i).Answered?
  }

  /** After n replies the call goes on: after a first text without a tool call, and, where failures
      are retried, after a retryable one that is not the fourth in a row. */
  predicate GoesOn(p: Provider, retry: bool, n: nat)
    requires n > 0
  {
    match p.reply(n - 1)
    case Answered(choice, _) =>
      (forall c | c in choice :: !c.ToolCallContent?) && forall i | 0 <= i < n - 1 :: !p.reply(i).Answered?
    case ProviderError(retryable) => retry && retryable && !FourFailures(p, n)
    case TimedOut => retry && !FourFailures(p, n)
  }

  predicate WentOn(p: Provider, retry: bool, n: nat) {
    forall m | 0 < m < n :: GoesOn(p, retry, m)
  }

  /** The report is of the last reply, or of a next request that is too large. */
  ghost predicate EndsWith(p: Provider, retry: bool, e: Exchange, r: Report) {
    var n := |r.sent|;
    match r.result
    case Success(done) => n > 0 && !GoesOn(p, retry, n) && p.reply(n - 1).Answered? && done.choice == p.reply(n - 1).choice
    case Failure(ModelFailed) => n > 0 && !GoesOn(p, retry, n) && p.reply(n - 1).ProviderError?
    case Failure(ModelTimeout) => n > 0 && !GoesOn(p, retry, n) && p.reply(n - 1).TimedOut?
    case Failure(ContextLimit(bytes)) =>
      bytes > 1048576 &&
      (if n == 0 then bytes == p.size(e)
       else GoesOn(p, retry, n) && exists next :: Follows(p.reply(n - 1), r.sent[n - 1], next) && bytes == p.size(next))
    case Failure(InvalidReply) => false
  }

  /** The two counters: failures in a row, and texts without a tool call. */
  predicate Counted(p: Provider, n: nat, provider: nat, protocol: nat) {
    && provider <= n && (forall i | n - provider <= i < n :: !p.reply(i).Answered?)
    && (if protocol == 0 then provider == n else provider < n && p.reply(n - provider - 1).Answered?)
  }

  lemma CountedOn(p: Provider, retry: bool, n: nat, provider: nat, protocol: nat)
    requires Counted(p, n, provider, protocol) && provider <= PROVIDER_RETRIES && protocol <= MODEL_PROTOCOL_RETRIES
    ensures GoesOn(p, retry, n + 1) <==>
              match p.reply(n)
              case Answered(choice, _) => !HasToolCall(choice) && protocol == 0
              case ProviderError(retryable) => retry && provider < PROVIDER_RETRIES && retryable
              case TimedOut => retry && provider < PROVIDER_RETRIES
    ensures if p.reply(n).Answered? then Counted(p, n + 1, 0, 1) else Counted(p, n + 1, provider + 1, protocol)
  {
    if protocol > 0 { assert p.reply(n - provider - 1).Answered?; }
  }

  /** After the requests sent, e is the next one. */
  ghost predicate Underway(p: Provider, retry: bool, first: Exchange, e: Exchange, provider: nat, protocol: nat, sent: seq<Exchange>) {
    && provider <= PROVIDER_RETRIES && protocol <= MODEL_PROTOCOL_RETRIES && Counted(p, |sent|, provider, protocol)
    && WentOn(p, retry, |sent|) && Conversation(p, sent) && Continues(p, sent, e)
    && if sent == [] then e == first else GoesOn(p, retry, |sent|)
  }

  lemma TooLarge(p: Provider, retry: bool, first: Exchange, e: Exchange, provider: nat, protocol: nat, sent: seq<Exchange>)
    requires Underway(p, retry, first, e, provider, protocol, sent) && p.size(e) > MODEL_CONTEXT_LIMIT
    ensures EndsWith(p, retry, first, Report(Failure(ContextLimit(p.size(e))), sent))
  {
  }

  lemma Sent(p: Provider, retry: bool, first: Exchange, e: Exchange, provider: nat, protocol: nat, sent: seq<Exchange>, next: Exchange)
    requires Underway(p, retry, first, e, provider, protocol, sent)
    requires GoesOn(p, retry, |sent| + 1) && Follows(p.reply(|sent|), e, next)
    ensures var text := p.reply(|sent|).Answered?;
            Underway(p, retry, first, next, if text then 0 else provider + 1, if text then 1 else protocol, sent + [e])
  {
    CountedOn(p, retry, |sent|, provider, protocol);
    ConversationGrows(p, sent, e);
  }

  lemma Stopped(p: Provider, retry: bool, first: Exchange, e: Exchange, provider: nat, protocol: nat, usage: nat, sent: seq<Exchange>)
    requires Underway(p, retry, first, e, provider, protocol, sent) && p.size(e) <= MODEL_CONTEXT_LIMIT
    requires !GoesOn(p, retry, |sent| + 1)
    ensures var r := CallFrom(p, retry, e, provider, protocol, usage, sent);
            EndsWith(p, retry, first, r) && WentOn(p, retry, |r.sent|) && Conversation(p, r.sent)
  {
    CountedOn(p, retry, |sent|, provider, protocol);
    ConversationGrows(p, sent, e);
  }

  function NextRequest(reply: ProviderReply, e: Exchange): Exchange {
    if reply.Answered? then Exchange(Corrective, e.history + [e.prompt, AssistantMessage(reply.choice)]) else e
  }

  lemma Continued(p: Provider, retry: bool, first: Exchange, e: Exchange, provider: nat, protocol: nat, usage: nat, sent: seq<Exchange>)
    requires Underway(p, retry, first, e, provider, protocol, sent) && p.size(e) <= MODEL_CONTEXT_LIMIT
    requires GoesOn(p, retry, |sent| + 1)
    ensures var reply := p.reply(|sent|);
            && Follows(reply, e, NextRequest(reply, e))
            && (if reply.Answered? then protocol == 0 else provider < PROVIDER_RETRIES)
            && CallFrom(p, retry, e, provider, protocol, usage, sent) ==
               CallFrom(p, retry, NextRequest(reply, e), if reply.Answered? then 0 else provider + 1,
                        if reply.Answered? then 1 else protocol, if reply.Answered? then usage + reply.usage else usage, sent + [e])
  {
    CountedOn(p, retry, |sent|, provider, protocol);
  }

  lemma {:induction false} CallFromEnds(p: Provider, retry: bool, first: Exchange, e: Exchange, provider: nat, protocol: nat,
                                        usage: nat, sent: seq<Exchange>)
    requires Underway(p, retry, first, e, provider, protocol, sent)
    ensures var r := CallFrom(p, retry, e, provider, protocol, usage, sent);
            EndsWith(p, retry, first, r) && WentOn(p, retry, |r.sent|) && Conversation(p, r.sent)
    decreases MODEL_PROTOCOL_RETRIES - protocol, PROVIDER_RETRIES - provider
  {
    if p.size(e) > MODEL_CONTEXT_LIMIT {
      TooLarge(p, retry, first, e, provider, protocol, sent);
    } else if !GoesOn(p, retry, |sent| + 1) {
      Stopped(p, retry, first, e, provider, protocol, usage, sent);
    } else {
      var reply := p.reply(|sent|);
      var next := NextRequest(reply, e);
      Continued(p, retry, first, e, provider, protocol, usage, sent);
      Sent(p, retry, first, e, provider, protocol, sent, next);
      CallFromEnds(p, retry, first, next, if reply.Answered? then 0 else provider + 1, if reply.Answered? then 1 else protocol,
                   if reply.Answered? then usage + reply.usage else usage, sent + [e]);
    }
  }

  /** A call goes on after each reply but the last exactly as the retries allow, and it ends with
      the last reply: its choice, its failure, or a next request beyond the context limit. */
  lemma CallEndsExactly(p: Provider, retry: bool, e: Exchange)
    ensures var r := Call(p, retry, e);
            EndsWith(p, retry, e, r) && WentOn(p, retry, |r.sent|)
  {
    CallFromEnds(p, retry, e, e, 0, 0, 0, []);
  }

  /** So a successful choice has a tool call unless it is the second text. */
  lemma ChoiceHasToolCall(p: Provider, retry: bool, e: Exchange)
    requires Call(p, retry, e).result.Success?
    ensures var r := Call(p, retry, e);
            || (exists c :: c in r.result.value.choice && c.ToolCallContent?)
            || (exists i: nat :: i < |r.sent| - 1 && p.reply(i).Answered?)
  {
    CallEndsExactly(p, retry, e);
  }

  /** Three time-outs, a text, three time-outs, a text. */
  const SLOW := Provider((x: Exchange) => 0, (n: nat) => if n == 3 || n == 7 then Answered([], 0) else TimedOut)

  const CHATTY := Provider((x: Exchange) => 0, (n: nat) => Answered([], 0))

  function AfterText(e: Exchange): Exchange {
    Exchange(Corrective, e.history + [e.prompt, AssistantMessage([])])
  }

  lemma SlowHalf(e: Exchange)
    ensures Call(SLOW, true, e) == CallFrom(SLOW, true, AfterText(e), 0, 1, 0, [e, e, e, e])
  {
    assert Call(SLOW, true, e) == CallFrom(SLOW, true, e, 2, 0, 0, [e, e]);
  }

  /** The bounds are reached. */
  lemma BoundsAreReached(e: Exchange)
    ensures |Call(SLOW, true, e).sent| == 8 && |Call(CHATTY, false, e).sent| == 2
  {
    var e' := AfterText(e);
    SlowHalf(e);
    assert CallFrom(SLOW, true, e', 0, 1, 0, [e, e, e, e]) == CallFrom(SLOW, true, e', 2, 1, 0, [e, e, e, e, e', e']);
    assert Call(CHATTY, false, e) == CallFrom(CHATTY, false, e', 0, 1, 0, [e]);
  }

  // ---------------------------------------------------------------- the fallback

  /** complete: the coder model without retries, and the verifier model when it is down. */
  function Completion(coder: Provider, verifier: Provider, e: Exchange): (r: (Report, Option<Report>)) {
    var primary := Call(coder, false, e);
    if primary.result == Failure(ModelFailed) || primary.result == Failure(ModelTimeout)
    then (primary, Some(Call(verifier, true, e)))
    else (primary, None)
  }

  method Complete(coder: Provider, verifier: Provider, e: Exchange)
    returns (result: Result<Choice, CallFailure>, requests: nat)
    ensures var r := Completion(coder, verifier, e);
            && result == (if r.1.Some? then r.1.value.result else r.0.result)
            && requests == |r.0.sent| + if r.1.Some? then |r.1.value.sent| else 0
    ensures result == if Call(coder, false, e).result in {Failure(ModelFailed), Failure(ModelTimeout)}
                      then Call(verifier, true, e).result else Call(coder, false, e).result
    ensures requests <= 10
  {
    var primary := CallModel(coder, false, e);
    CallIsBounded(coder, false, e);
    CallIsBounded(verifier, true, e);
    result, requests := primary.result, |primary.sent|;
    if result == Failure(ModelFailed) || result == Failure(ModelTimeout) {
      var fallback := CallModel(verifier, true, e);
      result, requests := fallback.result, requests + |fallback.sent|;
    }
  }

  /** A completed turn reports the usage of all answers received exactly when the coder model,
      if it failed, had not answered anything that cost: its share is dropped. */
  lemma CompletionUsage(coder: Provider, verifier: Provider, e: Exchange)
    requires var r := Completion(coder, verifier, e); (if r.1.Some? then r.1.value.result else r.0.result).Success?
    ensures var r := Completion(coder, verifier, e);
            var received := UsageOf(coder, |r.0.sent|) + if r.1.Some? then UsageOf(verifier, |r.1.value.sent|) else 0;
            var reported := (if r.1.Some? then r.1.value.result else r.0.result).value.usage;
            && (reported == received <==> r.1.None? || UsageOf(coder, |r.0.sent|) == 0)
            && reported <= received
  {
    CallIsBounded(coder, false, e);
    CallIsBounded(verifier, true, e);
  }

  /** Five tokens for a text, then silence. */
  const COSTLY := Provider((x: Exchange) => 0, (n: nat) => if n == 0 then Answered([], 5) else TimedOut)

  const WILLING := Provider((x: Exchange) => 0, (n: nat) => Answered([ToolCallContent("", OtherArguments)], 0))

  /** The coder model answers a text that costs five and then times out; the verifier model
      answers with a tool call; the turn succeeds and reports nothing of the five. */
  lemma FailedCoderIsNotReported(e: Exchange)
    ensures var r := Completion(COSTLY, WILLING, e);
            && r.0.result == Failure(ModelTimeout) && UsageOf(COSTLY, |r.0.sent|) == 5
            && r.1.Some? && r.1.value.result.Success? && r.1.value.result.value.usage == 0
  {
    var e' := AfterText(e);
    assert Call(COSTLY, false, e) == CallFrom(COSTLY, false, e', 0, 1, 5, [e]);
    assert Call(COSTLY, false, e) == Report(Failure(ModelTimeout), [e, e']);
    assert UsageOf(COSTLY, 1) == 5 && UsageOf(COSTLY, 2) == 5;
    assert HasToolCall([ToolCallContent("", OtherArguments)]) by {
      assert ToolCallContent("", OtherArguments) in [ToolCallContent("", OtherArguments)];
    }
  }

  // ---------------------------------------------------------------- reviews that are asked for twice

  function ToolCallsOf(choice: seq<Content>): seq<Content> {
    if choice == [] then []
    else (if choice[0].ToolCallContent? then [choice[0]] else []) + ToolCallsOf(choice[1..])
  }

  /** parse_contract_review_turn: exactly one call, with a reason, and issues exactly when the
      contract is not accepted. */
  function ParseReview(choice: seq<Content>): Option<Review> {
    var calls := ToolCallsOf(choice);
    if |calls| != 1 || !calls[0].ToolCallContent? || calls[0].name != "submit_contract_review" then None
    else if !calls[0].arguments.ReviewArguments? then None
    else
      var review := calls[0].arguments.review;
      if !ValidReason(review.reason) then None
      else if |review.issues| > 3 || exists i | i in review.issues :: Blank(i) || |i| > 2048 then None
      else if review.decision == Accept && review.issues != [] then None
      else if review.decision != Accept && review.issues == [] then None
      else Some(review)
  }

  /** parse_verifier_turn: a replacement exactly when the oracle is found wrong. */
  function ParseVerdict(choice: seq<Content>): Option<Verdict> {
    var calls := ToolCallsOf(choice);
    if |calls| != 1 || !calls[0].ToolCallContent? || calls[0].name != "submit_test_verdict" then None
    else if !calls[0].arguments.VerdictArguments? || !ValidReason(calls[0].arguments.reason) then None
    else
      var v := calls[0].arguments;
      match v.kind
      case SaysOracleWrong =>
        if v.stdout.None? || |v.stdout.value| > MIB || v.exitCode.None? then None else Some(OracleWrong(v.stdout, v.exitCode))
      case SaysImplementationWrong => if v.stdout.Some? || v.exitCode.Some? then None else Some(ImplementationWrong)
      case SaysAmbiguous => if v.stdout.Some? || v.exitCode.Some? then None else Some(Ambiguous)
  }

  /** c is the one tool call of the choice. */
  ghost predicate OnlyCall(choice: seq<Content>, c: Content) {
    exists i | 0 <= i < |choice| ::
      choice[i] == c && c.ToolCallContent? && forall k | 0 <= k < |choice| && k != i :: !choice[k].ToolCallContent?
  }

  lemma {:induction false} NoCallsExactly(choice: seq<Content>)
    ensures ToolCallsOf(choice) == [] <==> forall k | 0 <= k < |choice| :: !choice[k].ToolCallContent?
  {
    if choice != [] {
      NoCallsExactly(choice[1..]);
      assert forall k | 0 < k < |choice| :: choice[k] == choice[1..][k - 1];
      assert forall k | 0 <= k < |choice| - 1 :: choice[1..][k] == choice[k + 1];
    }
  }

  lemma {:induction false} OnlyCallExactly(choice: seq<Content>, c: Content)
    ensures ToolCallsOf(choice) == [c] <==> OnlyCall(choice, c)
  {
    if choice != [] {
      var rest := choice[1..];
      assert forall k | 0 < k < |choice| :: choice[k] == rest[k - 1];
      assert forall k | 0 <= k < |rest| :: rest[k] == choice[k + 1];
      if choice[0].ToolCallContent? {
        NoCallsExactly(rest);
        assert [choice[0]] + ToolCallsOf(rest) == [c] <==> choice[0] == c && ToolCallsOf(rest) == [];
        if OnlyCall(choice, c) {
          var i :| 0 <= i < |choice| && choice[i] == c && forall k | 0 <= k < |choice| && k != i :: !choice[k].ToolCallContent?;
          assert i == 0;
        }
      } else {
        OnlyCallExactly(rest, c);
        assert ToolCallsOf(choice) == ToolCallsOf(rest);
        OnlyCallOfRest(choice, c);
      }
    }
  }

  lemma OnlyCallOfRest(choice: seq<Content>, c: Content)
    requires choice != [] && !choice[0].ToolCallContent?
    ensures OnlyCall(choice, c) <==> OnlyCall(choice[1..], c)
  {
    var rest := choice[1..];
    if OnlyCall(choice, c) {
      var i :| 0 <= i < |choice| && choice[i] == c && forall k | 0 <= k < |choice| && k != i :: !choice[k].ToolCallContent?;
      assert rest[i - 1] == c;
      forall k | 0 <= k < |rest| && k != i - 1 ensures !rest[k].ToolCallContent? { assert rest[k] == choice[k + 1]; }
    }
    if OnlyCall(rest, c) {
      var i :| 0 <= i < |rest| && rest[i] == c && forall k | 0 <= k < |rest| && k != i :: !rest[k].ToolCallContent?;
      assert choice[i + 1] == c;
      forall k | 0 <= k < |choice| && k != i + 1 ensures !choice[k].ToolCallContent? { if k > 0 { assert choice[k] == rest[k - 1]; } }
    }
  }

  predicate SaysSomething(text: string, limit: nat) {
    |text| <= limit && exists i | 0 <= i < |text| :: !IsSpace(text[i])
  }

  /** The one tool call submits this review: a reason, at most three issues, none exactly when the
      contract is accepted. */
  ghost predicate SubmitsReview(choice: seq<Content>, review: Review) {
    && OnlyCall(choice, ToolCallContent("submit_contract_review", ReviewArguments(review)))
    && SaysSomething(review.reason, 2048) && |review.issues| <= 3
    && (forall i | 0 <= i < |review.issues| :: SaysSomething(review.issues[i], 2048))
    && (review.decision == Accept <==> |review.issues| == 0)
  }

  lemma ReviewExactly(choice: seq<Content>, review: Review)
    ensures ParseReview(choice) == Some(review) <==> SubmitsReview(choice, review)
  {
    var calls := ToolCallsOf(choice);
    OnlyCallExactly(choice, ToolCallContent("submit_contract_review", ReviewArguments(review)));
    if |calls| == 1 { assert calls == [calls[0]]; }
    assert forall i | 0 <= i < |review.issues| :: review.issues[i] in review.issues;
  }

  /** The one tool call submits this verdict; a replacement is there exactly when the expectation is
      found wrong. */
  ghost predicate SubmitsVerdict(choice: seq<Content>, verdict: Verdict) {
    exists kind, reason, stdout, exitCode ::
      && OnlyCall(choice, ToolCallContent("submit_test_verdict", VerdictArguments(kind, reason, stdout, exitCode)))
      && SaysSomething(reason, 2048)
      && match verdict
         case OracleWrong(s, x) =>
           kind == SaysOracleWrong && s == stdout && x == exitCode && s.Some? && x.Some? && |s.value| <= 1048576
         case ImplementationWrong => kind == SaysImplementationWrong && stdout.None? && exitCode.None?
         case Ambiguous => kind == SaysAmbiguous && stdout.None? && exitCode.None?
  }

  lemma VerdictExactly(choice: seq<Content>, verdict: Verdict)
    ensures ParseVerdict(choice) == Some(verdict) <==> SubmitsVerdict(choice, verdict)
  {
    var calls := ToolCallsOf(choice);
    if ParseVerdict(choice) == Some(verdict) {
      var v := calls[0].arguments;
      assert calls == [calls[0]];
      assert calls[0] == ToolCallContent("submit_test_verdict", VerdictArguments(v.kind, v.reason, v.stdout, v.exitCode));
      OnlyCallExactly(choice, calls[0]);
    }
    if kind, reason, stdout, exitCode :|
         OnlyCall(choice, ToolCallContent("submit_test_verdict", VerdictArguments(kind, reason, stdout, exitCode))) &&
         SaysSomething(reason, 2048) &&
         match verdict
         case OracleWrong(s, x) =>
           kind == SaysOracleWrong && s == stdout && x == exitCode && s.Some? && x.Some? && |s.value| <= 1048576
         case ImplementationWrong => kind == SaysImplementationWrong && stdout.None? && exitCode.None?
         case Ambiguous => kind == SaysAmbiguous && stdout.None? && exitCode.None?
    {
      OnlyCallExactly(choice, ToolCallContent("submit_test_verdict", VerdictArguments(kind, reason, stdout, exitCode)));
    }
  }

  /** The two prompts of a reviewer and how the provider answers each call. */
  type Sitting = nat -> (Provider, Exchange)

  datatype Reviewed<T> = Reviewed(result: Result<T, CallFailure>, requests: nat)

  /** The reviewer's calls from this attempt on, after so many requests. */
  function AskFrom<T>(parse: seq<Content> -> Option<T>, sitting: Sitting, attempt: nat, requests: nat): Reviewed<T>
    requires attempt <= 2
    decreases 2 - attempt
  {
    if attempt == 2 then Reviewed(Failure(InvalidReply), requests)
    else
      var report := Call(sitting(attempt).0, true, sitting(attempt).1);
      var total := requests + |report.sent|;
      if report.result.Failure? then Reviewed(Failure(report.result.error), total)
      else if parse(report.result.value.choice).Some? then Reviewed(Success(parse(report.result.value.choice).value), total)
      else AskFrom(parse, sitting, attempt + 1, total)
  }

  /** review_contract and verify_generated_test: the first reply that parses, of at most two. */
  method AskTwice<T>(parse: seq<Content> -> Option<T>, sitting: Sitting)
    returns (r: Reviewed<T>)
    ensures r == AskFrom(parse, sitting, 0, 0)
  {
    var requests: nat := 0;
    for attempt := 0 to 2
      invariant AskFrom(parse, sitting, 0, 0) == AskFrom(parse, sitting, attempt, requests)
    {
      var report := CallModel(sitting(attempt).0, true, sitting(attempt).1);
      requests := requests + |report.sent|;
      if report.result.Failure? { return Reviewed(Failure(report.result.error), requests); }
      var parsed := parse(report.result.value.choice);
      if parsed.Some? { return Reviewed(Success(parsed.value), requests); }
    }
    return Reviewed(Failure(InvalidReply), requests);
  }

  /** The n-th call of a reviewer succeeds with this choice. */
  predicate Replied(sitting: Sitting, n: nat, choice: seq<Content>) {
    var r := Call(sitting(n).0, true, sitting(n).1).result; r.Success? && r.value.choice == choice
  }

  /** A reviewer succeeds exactly with what the first reply that parses says, of at most two. */
  lemma FirstThatParses<T>(parse: seq<Content> -> Option<T>, sitting: Sitting, said: T)
    ensures AskFrom(parse, sitting, 0, 0).result == Success(said) <==>
              || (exists x :: Replied(sitting, 0, x) && parse(x) == Some(said))
              || (exists x, y :: Replied(sitting, 0, x) && parse(x).None? && Replied(sitting, 1, y) && parse(y) == Some(said))
  {
    var first, second := Call(sitting(0).0, true, sitting(0).1).result, Call(sitting(1).0, true, sitting(1).1).result;
    if first.Success? { assert Replied(sitting, 0, first.value.choice); }
    if second.Success? { assert Replied(sitting, 1, second.value.choice); }
    AskFromOnce(parse, sitting);
  }

  lemma AskFromOnce<T>(parse: seq<Content> -> Option<T>, sitting: Sitting)
    ensures var first, second := Call(sitting(0).0, true, sitting(0).1), Call(sitting(1).0, true, sitting(1).1);
            var r := AskFrom(parse, sitting, 0, 0);
            if first.result.Failure? then r == Reviewed(Failure(first.result.error), |first.sent|)
            else if parse(first.result.value.choice).Some?
            then r == Reviewed(Success(parse(first.result.value.choice).value), |first.sent|)
            else if second.result.Failure? then r == Reviewed(Failure(second.result.error), |first.sent| + |second.sent|)
            else r == Reviewed(if parse(second.result.value.choice).Some? then Success(parse(second.result.value.choice).value)
                               else Failure(InvalidReply), |first.sent| + |second.sent|)
  {
    var first := Call(sitting(0).0, true, sitting(0).1);
    assert AskFrom(parse, sitting, 2, |first.sent| + |Call(sitting(1).0, true, sitting(1).1).sent|).result == Failure(InvalidReply);
  }

  lemma {:induction false} AskFromBounded<T>(parse: seq<Content> -> Option<T>, sitting: Sitting, attempt: nat, requests: nat)
    requires attempt <= 2
    ensures var r := AskFrom(parse, sitting, attempt, requests);
            && r.requests <= requests + 8 * (2 - attempt)
            && (r.result.Success? ==> exists choice :: parse(choice) == Some(r.result.value))
    decreases 2 - attempt
  {
    if attempt < 2 {
      var report := Call(sitting(attempt).0, true, sitting(attempt).1);
      CallIsBounded(sitting(attempt).0, true, sitting(attempt).1);
      AskFromBounded(parse, sitting, attempt + 1, requests + |report.sent|);
    }
  }

  /** A review costs at most sixteen requests; an accepting one raises no issue, and any other
      raises one to three. */
  lemma ReviewsAreConsistent(sitting: Sitting)
    ensures var r := AskFrom(ParseReview, sitting, 0, 0);
            && r.requests <= 16
            && (r.result.Success? ==>
                  (r.result.value.decision == Accept <==> r.result.value.issues == []) && |r.result.value.issues| <= 3)
  {
    AskFromBounded(ParseReview, sitting, 0, 0);
  }

  /** A verdict costs at most sixteen requests, and one that finds the oracle wrong always
      carries a replacement: the worker's errors for a missing one are never reached. */
  lemma VerdictsAreComplete(sitting: Sitting)
    ensures var r := AskFrom(ParseVerdict, sitting, 0, 0);
            && r.requests <= 16
            && (r.result.Success? && r.result.value.OracleWrong? ==>
                  r.result.value.stdout.Some? && r.result.value.exitCode.Some? && |r.result.value.stdout.value| <= MIB)
  {
    AskFromBounded(ParseVerdict, sitting, 0, 0);
  }

  lemma ReviewComesFrom(sitting: Sitting)
    requires AskFrom(ParseReview, sitting, 0, 0).result.Success?
    ensures exists n: nat, choice ::
              n < 2 && Replied(sitting, n, choice) && SubmitsReview(choice, AskFrom(ParseReview, sitting, 0, 0).result.value)
  {
    var said := AskFrom(ParseReview, sitting, 0, 0).result.value;
    FirstThatParses(ParseReview, sitting, said);
    forall choice ensures ParseReview(choice) == Some(said) <==> SubmitsReview(choice, said) { ReviewExactly(choice, said); }
  }

  lemma VerdictComesFrom(sitting: Sitting)
    requires AskFrom(ParseVerdict, sitting, 0, 0).result.Success?
    ensures exists n: nat, choice ::
              n < 2 && Replied(sitting, n, choice) && SubmitsVerdict(choice, AskFrom(ParseVerdict, sitting, 0, 0).result.value)
  {
    var said := AskFrom(ParseVerdict, sitting, 0, 0).result.value;
    FirstThatParses(ParseVerdict, sitting, said);
    forall choice ensures ParseVerdict(choice) == Some(said) <==> SubmitsVerdict(choice, said) { VerdictExactly(choice, said); }
  }

  /** At most sixteen requests for a review that is accepting exactly when it has no issue. */
  method ReviewContract(sitting: Sitting)
    returns (r: Reviewed<Review>)
    ensures r == AskFrom(ParseReview, sitting, 0, 0) && r.requests <= 16
    ensures r.result.Success? ==>
              exists n: nat, choice :: n < 2 && Replied(sitting, n, choice) && SubmitsReview(choice, r.result.value)
  {
    ReviewsAreConsistent(sitting);
    if AskFrom(ParseReview, sitting, 0, 0).result.Success? { ReviewComesFrom(sitting); }
    r := AskTwice(ParseReview, sitting);
  }

  /** At most sixteen requests for a verdict whose replacement, if it needs one, is there. */
  method VerifyGeneratedTest(sitting: Sitting)
    returns (r: Reviewed<Verdict>)
    ensures r == AskFrom(ParseVerdict, sitting, 0, 0) && r.requests <= 16
    ensures r.result.Success? ==>
              exists n: nat, choice :: n < 2 && Replied(sitting, n, choice) && SubmitsVerdict(choice, r.result.value)
  {
    VerdictsAreComplete(sitting);
    if AskFrom(ParseVerdict, sitting, 0, 0).result.Success? { VerdictComesFrom(sitting); }
    r := AskTwice(ParseVerdict, sitting);
  }
}
