/**
 * The polling execution client for the Judge0 API (`makeSubmission` of
 * src/service.js). The creation POST and every status GET are inputs: the
 * model receives the creation reply and the sequence of replies the
 * status endpoint would give, one per poll, and returns the request it
 * builds, how many polls it issues and the callback events it emits.
 */
module Judge0Service {
  import opened Options
  import opened Lang
  import opened Events

  /** `languageCodeMap`: Judge0's numeric language id for each language. */
  function LanguageId(l: Language): (id: int)
    ensures id > 0
    ensures LanguageOfId(id) == Some(l)
  {
    match l
    case Cpp => 76
    case Python => 100
    case JavaScript => 93
    case Java => 62
  }

  /** The inverse lookup: which language a judge id stands for. */
  function LanguageOfId(id: int): Option<Language> {
    if id == 76 then Some(Cpp)
    else if id == 100 then Some(Python)
    else if id == 93 then Some(JavaScript)
    else if id == 62 then Some(Java)
    else None
  }

  /** No two languages share a judge id. */
  lemma LanguageIdsDistinct(a: Language, b: Language)
    requires a != b
    ensures LanguageId(a) != LanguageId(b)
  {
  }

  /** Base64 text, represented by the string it decodes to: the judge's
      encoded fields are always valid Base64, so decoding is total. */
  datatype Base64 = Base64(decoded: string)

  /** `atob`. */
  function Atob(b: Base64): string { b.decoded }

  predicate IsLatin1(s: string) {
    forall i :: 0 <= i < |s| ==> s[i] <= '\U{00FF}'
  }

  /** `btoa`: `None` where the built-in throws, which it does exactly for
      a string holding a character outside Latin-1. */
  function Btoa(s: string): (r: Option<Base64>)
    ensures r.Some? <==> IsLatin1(s)
    ensures r.Some? ==> Atob(r.value) == s
  {
    if IsLatin1(s) then Some(Base64(s)) else None
  }

  /** The JSON body of the creation POST. */
  datatype CreationRequest = CreationRequest(languageId: int, sourceCode: Base64, stdin: Base64)

  /** The body built before the `try` (lines 36-43); `None` when `btoa`
      throws, in which case `makeSubmission` rejects before any callback. */
  function BuildRequest(code: string, language: Language, stdin: string): (r: Option<CreationRequest>)
    ensures r.Some? <==> IsLatin1(code) && IsLatin1(stdin)
    ensures r.Some? ==> LanguageOfId(r.value.languageId) == Some(language)
    ensures r.Some? ==> Atob(r.value.sourceCode) == code && Atob(r.value.stdin) == stdin
  {
    var source := Btoa(code);
    var input := Btoa(stdin);
    if source.Some? && input.Some? then Some(CreationRequest(LanguageId(language), source.value, input.value))
    else None
  }

  /** The fields of a status reply the UI reads. */
  datatype Submission = Submission(statusId: int, languageId: int, stdout: Base64, stderr: Base64, compileOutput: Base64)

  /** The creation call: it throws (network failure or a body that is not
      JSON), or yields a token. */
  datatype CreationReply = CreationFailed | Created(token: string)

  /** One status poll: it throws (network failure, a body that is not JSON,
      or a reply without `status`), or yields the submission. */
  datatype PollReply = PollFailed | Polled(submission: Submission)

  /** Status ids 1 (in queue) and 2 (processing) keep the loop going. */
  predicate IsPending(statusId: int) { statusId == 1 || statusId == 2 }

  predicate KeepsPolling(r: PollReply) { r.Polled? && IsPending(r.submission.statusId) }

  /** The index of the first reply that ends the loop, or `|replies|` when
      every reply keeps it going. */
  function FirstStop(replies: seq<PollReply>): (k: nat)
    ensures k <= |replies|
    ensures forall j :: 0 <= j < k ==> KeepsPolling(replies[j])
    ensures k < |replies| ==> !KeepsPolling(replies[k])
  {
    if replies == [] || !KeepsPolling(replies[0]) then 0 else 1 + FirstStop(replies[1..])
  }

  /** The terminal event for the reply that ends the loop. */
  function Terminal(r: PollReply): (e: Event<Submission>)
    ensures e.IsTerminal()
  {
    match r
    case PollFailed => Error(SerializedError)
    case Polled(s) => Success(s)
  }

  /** The callback events of one run. The replies are a finite prefix of
      an unbounded stream: when none of them ends the loop, the run is
      still polling and only `loading` has been reported. */
  function Trace(code: string, language: Language, stdin: string,
                 creation: CreationReply, replies: seq<PollReply>): (t: seq<Event<Submission>>)
    ensures t == [] <==> BuildRequest(code, language, stdin).None?
    ensures |t| <= 2
  {
    if BuildRequest(code, language, stdin).None? then []
    else if creation.CreationFailed? then [Loading, Error(SerializedError)]
    else
      var k := FirstStop(replies);
      if k == |replies| then [Loading] else [Loading, Terminal(replies[k])]
  }

  /** `makeSubmission`, with `getSubmission` replaced by the sequence of
      its replies. */
  method MakeSubmission(code: string, language: Language, stdin: string,
                        creation: CreationReply, replies: seq<PollReply>)
    returns (request: Option<CreationRequest>, polls: nat, events: seq<Event<Submission>>)
    ensures request == BuildRequest(code, language, stdin)
    ensures events == Trace(code, language, stdin, creation, replies)
    ensures request.None? || creation.CreationFailed? ==> polls == 0
    ensures request.Some? && creation.Created? ==>
      polls == if FirstStop(replies) < |replies| then FirstStop(replies) + 1 else |replies|
  {
    request := BuildRequest(code, language, stdin);
    polls := 0;
    if request.None? {
      events := [];
      return;
    }
    events := [Loading];
    if creation.CreationFailed? {
      events := events + [Error(SerializedError)];
      return;
    }
    var result: Option<Submission> := None;
    var statusCode := 1;
    var i := 0;
    while statusCode == 1 || statusCode == 2
      invariant 0 <= i <= |replies|
      invariant forall j :: 0 <= j < i ==> replies[j].Polled?
      invariant forall j :: 0 <= j < i - 1 ==> KeepsPolling(replies[j])
      invariant i == 0 ==> statusCode == 1
      invariant i > 0 ==> result == Some(replies[i - 1].submission) && statusCode == result.value.statusId
      invariant events == [Loading]
      decreases |replies| - i
    {
      if i == |replies| {
        // No further reply is known: the run is still polling.
        polls := i;
        return;
      }
      match replies[i] {
        case PollFailed =>
          polls := i + 1;
          events := events + [Error(SerializedError)];
          return;
        case Polled(s) =>
          result := Some(s);
          statusCode := s.statusId;
      }
      i := i + 1;
    }
    polls := i;
    // The source's `if (apiSubmissionResult)` always holds here: the loop
    // body ran at least once and stored a reply.
    events := events + [Success(result.value)];
  }

  /** `loading` comes first and at most one terminal event follows. */
  lemma TraceHasAtMostOneTerminal(code: string, language: Language, stdin: string,
                                  creation: CreationReply, replies: seq<PollReply>)
    ensures AtMostOneTerminal(Trace(code, language, stdin, creation, replies))
  {
  }

  /** A `success` carries the reply that ended the loop, whose status id is
      neither 1 nor 2, and every earlier reply was pending. */
  lemma SuccessIsFirstSettledReply(code: string, language: Language, stdin: string,
                                   creation: CreationReply, replies: seq<PollReply>, i: nat)
    requires var t := Trace(code, language, stdin, creation, replies); i < |t| && t[i].Success?
    ensures var t := Trace(code, language, stdin, creation, replies);
      && !IsPending(t[i].data.statusId)
      && var k := FirstStop(replies);
      && k < |replies| && replies[k] == Polled(t[i].data)
      && forall j :: 0 <= j < k ==> replies[j].Polled? && IsPending(replies[j].submission.statusId)
  {
  }

  /** A failing poll reached before any settled status ends the run with
      one `error` and no `success`. */
  lemma {:induction false} FailedPollIsFatal(code: string, language: Language, stdin: string,
                                             token: string, replies: seq<PollReply>, j: nat)
    requires IsLatin1(code) && IsLatin1(stdin)
    requires j < |replies| && replies[j].PollFailed?
    requires forall i :: 0 <= i < j ==> KeepsPolling(replies[i])
    ensures Trace(code, language, stdin, Created(token), replies) == [Loading, Error(SerializedError)]
  {
  }

  /** Pending replies alone never finish the run. */
  lemma {:induction false} PendingRepliesKeepPolling(code: string, language: Language, stdin: string,
                                                     token: string, replies: seq<PollReply>)
    requires IsLatin1(code) && IsLatin1(stdin)
    requires forall i :: 0 <= i < |replies| ==> KeepsPolling(replies[i])
    ensures Trace(code, language, stdin, Created(token), replies) == [Loading]
  {
  }

  /** A character `btoa` cannot encode means no callback at all. */
  lemma EncodingFailureIsSilent(code: string, language: Language, stdin: string,
                                creation: CreationReply, replies: seq<PollReply>)
    requires !IsLatin1(code) || !IsLatin1(stdin)
    ensures Trace(code, language, stdin, creation, replies) == []
  {
  }
}
