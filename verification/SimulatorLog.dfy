/** At-least-once delivery to the simulator: failures leave no trace, an event identity is spent once,
    and retries of recorded events change nothing. */
module SimulatorLog {
  import opened Common
  import opened Simulator

  /** Whether asking again now would return a stored answer and leave the state alone. */
  predicate Recorded(rules: FillRules, st: State, c: Command, answer: Response) {
    Execute(rules, st, c) == Outcome(st, Ok(answer))
  }

  /** A failing command, whatever the reason, leaves account, clock and log untouched. */
  lemma FailureChangesNothing(rules: FillRules, st: State, c: Command)
    requires Execute(rules, st, c).answer.Err?
    ensures Execute(rules, st, c).state == st
  {
    hide Apply;
  }

  lemma SuccessIsRecorded(rules: FillRules, st: State, c: Command)
    requires Execute(rules, st, c).answer.Ok?
    ensures
      var o := Execute(rules, st, c);
      Recorded(rules, o.state, c, o.answer.value)
  {
    hide Apply, OrderFor;
  }

  /** Recorded answers survive every later command, successful or not. */
  lemma RecordsSurvive(rules: FillRules, st: State, c: Command, answer: Response, other: Command)
    requires Recorded(rules, st, c, answer)
    ensures Recorded(rules, Execute(rules, st, other).state, c, answer)
  {
    hide Apply, OrderFor;
    RecordedMeansLogged(rules, st, c, answer);
    LogGrows(rules, st, other);
    LoggedMeansRecorded(rules, Execute(rules, st, other).state, c, answer);
  }

  /** The identity and the stored form of a command that passes its own input checks. */
  function Identity(c: Command): EventId {
    match c
    case Submit(p, _, _, _) => SubmitOf(p.id)
    case Cancel(id, _) => CancelOf(id)
    case EndSession(at) => SessionAt(at)
    case OnQuote(event, _) => event
  }

  ghost predicate Logs(rules: FillRules, st: State, c: Command, answer: Response) {
    && Identity(c) in st.log
    && st.log[Identity(c)].response == answer
    && Execute(rules, st, c) == Event(rules, st, Identity(c), st.log[Identity(c)].request)
    && !Identity(c).BlankId?
    && (forall s: State :: Execute(rules, s, c) == Event(rules, s, Identity(c), st.log[Identity(c)].request))
  }

  /** A success that leaves the clock and the log alone was answered from the log. */
  lemma RecordedMeansLogged(rules: FillRules, st: State, c: Command, answer: Response)
    requires Recorded(rules, st, c, answer)
    ensures Logs(rules, st, c, answer)
  {
    hide Apply, OrderFor;
  }

  lemma LoggedMeansRecorded(rules: FillRules, st: State, c: Command, answer: Response)
    requires Logs(rules, st, c, answer)
    ensures Recorded(rules, st, c, answer)
  {
    hide Apply, OrderFor;
  }

  lemma LogGrows(rules: FillRules, st: State, c: Command)
    ensures
      var after := Execute(rules, st, c).state;
      forall id :: id in st.log ==> id in after.log && after.log[id] == st.log[id]
  {
    hide Apply, OrderFor;
  }

  // ---------------------------------------------------------------- failures and spent identities

  function Answers(rules: FillRules, st: State, cs: seq<Command>): seq<Result<Response, Error>>
    decreases |cs|
  {
    if cs == [] then []
    else
      var o := Execute(rules, st, cs[0]);
      [o.answer] + Answers(rules, o.state, cs[1..])
  }

  /** The commands of a run that were answered with success. */
  function Successes(rules: FillRules, st: State, cs: seq<Command>): seq<Command>
    decreases |cs|
  {
    if cs == [] then []
    else
      var o := Execute(rules, st, cs[0]);
      (if o.answer.Ok? then [cs[0]] else []) + Successes(rules, o.state, cs[1..])
  }

  function OkAnswers(answers: seq<Result<Response, Error>>): seq<Result<Response, Error>> {
    if answers == [] then []
    else (if answers[0].Ok? then [answers[0]] else []) + OkAnswers(answers[1..])
  }

  /** Failures leave no trace: account, clock and log end as if only the commands that succeeded had
      been issued, and each of those gets the same answer without the others. */
  lemma {:induction false} FailuresLeaveNoTrace(rules: FillRules, st: State, cs: seq<Command>)
    ensures Run(rules, st, Successes(rules, st, cs)) == Run(rules, st, cs)
    ensures Answers(rules, st, Successes(rules, st, cs)) == OkAnswers(Answers(rules, st, cs))
    decreases |cs|
  {
    hide Execute;
    if cs != [] {
      var o := Execute(rules, st, cs[0]);
      FailuresLeaveNoTrace(rules, o.state, cs[1..]);
      if o.answer.Ok? {
        assert Successes(rules, st, cs)[1..] == Successes(rules, o.state, cs[1..]);
      } else {
        FailureChangesNothing(rules, st, cs[0]);
        assert Successes(rules, st, cs) == Successes(rules, o.state, cs[1..]);
      }
    }
  }

  /** The command passes its own input checks and puts this request to the log. */
  ghost predicate Puts(rules: FillRules, c: Command, request: Request) {
    forall s: State :: Execute(rules, s, c) == Event(rules, s, Identity(c), request)
  }

  /** An identity is spent by its first success. Whatever runs in between, a later command with that
      identity changes nothing: it gets the stored answer when it puts the very request that was
      logged, and is refused as a conflict when it puts another. */
  lemma {:induction false} IdentityIsSpent(rules: FillRules, st: State, c: Command, answer: Response, cs: seq<Command>,
                                           other: Command, request: Request)
    requires Recorded(rules, st, c, answer)
    requires Identity(other) == Identity(c) && Puts(rules, other, request)
    ensures Identity(c) in st.log
    ensures
      var last := Run(rules, st, cs);
      Execute(rules, last, other) ==
        Outcome(last, if request == st.log[Identity(c)].request then Ok(answer) else Err(ConflictingRetry))
    decreases |cs|
  {
    hide Execute;
    RecordedMeansLogged(rules, st, c, answer);
    if cs != [] {
      RecordsSurvive(rules, st, c, answer, cs[0]);
      LogGrows(rules, st, cs[0]);
      IdentityIsSpent(rules, Execute(rules, st, cs[0]).state, c, answer, cs[1..], other, request);
    }
  }

  // ---------------------------------------------------------------- interleaved retries

  /** A delivery is either a command's first issue or a retry of one that succeeded. */
  datatype Delivery = First(command: Command) | Retry(command: Command)

  function Commands(ds: seq<Delivery>): seq<Command> {
    if ds == [] then [] else [ds[0].command] + Commands(ds[1..])
  }

  function WithoutRetries(ds: seq<Delivery>): seq<Command> {
    if ds == [] then []
    else (if ds[0].First? then [ds[0].command] else []) + WithoutRetries(ds[1..])
  }

  /** The answers to first issues alone, in a run that includes the retries. */
  function FirstAnswers(rules: FillRules, st: State, ds: seq<Delivery>): seq<Result<Response, Error>>
    decreases |ds|
  {
    if ds == [] then []
    else
      var o := Execute(rules, st, ds[0].command);
      (if ds[0].First? then [o.answer] else []) + FirstAnswers(rules, o.state, ds[1..])
  }

  /** Every retry repeats a command already answered with success; `done` remembers the answers. */
  predicate Faithful(rules: FillRules, st: State, done: map<Command, Response>, ds: seq<Delivery>)
    decreases |ds|
  {
    ds == [] || (
      var c := ds[0].command;
      var o := Execute(rules, st, c);
      if ds[0].Retry? then c in done && Faithful(rules, st, done, ds[1..])
      else Faithful(rules, o.state, if o.answer.Ok? then done[c := o.answer.value] else done, ds[1..]))
  }

  /** Every retry is answered as its first issue was. */
  predicate RetriesRepeat(rules: FillRules, st: State, done: map<Command, Response>, ds: seq<Delivery>)
    decreases |ds|
  {
    ds == [] || (
      var c := ds[0].command;
      var o := Execute(rules, st, c);
      if ds[0].Retry? then c in done && o.answer == Ok(done[c]) && RetriesRepeat(rules, o.state, done, ds[1..])
      else RetriesRepeat(rules, o.state, if o.answer.Ok? then done[c := o.answer.value] else done, ds[1..]))
  }

  ghost predicate AllRecorded(rules: FillRules, st: State, done: map<Command, Response>) {
    forall c :: c in done ==> Recorded(rules, st, c, done[c])
  }

  /** Idempotence: interleave any retries of commands that already succeeded, in any order and
      number. The account, clock and log end the same as without them, every first issue gets the
      same answer, and every retry gets the answer its first issue got. */
  lemma {:induction false} RetriesChangeNothing(rules: FillRules, st: State, done: map<Command, Response>, ds: seq<Delivery>)
    requires Faithful(rules, st, done, ds) && AllRecorded(rules, st, done)
    ensures Run(rules, st, Commands(ds)) == Run(rules, st, WithoutRetries(ds))
    ensures FirstAnswers(rules, st, ds) == Answers(rules, st, WithoutRetries(ds))
    ensures RetriesRepeat(rules, st, done, ds)
    decreases |ds|
  {
    hide Execute;
    if ds != [] {
      var c := ds[0].command;
      var o := Execute(rules, st, c);
      assert Commands(ds)[1..] == Commands(ds[1..]);
      if ds[0].Retry? {
        assert Recorded(rules, st, c, done[c]);
        assert WithoutRetries(ds) == WithoutRetries(ds[1..]);
        RetriesChangeNothing(rules, st, done, ds[1..]);
      } else {
        var done' := if o.answer.Ok? then done[c := o.answer.value] else done;
        forall d | d in done' ensures Recorded(rules, o.state, d, done'[d]) {
          if d == c && o.answer.Ok? {
            SuccessIsRecorded(rules, st, c);
          } else {
            RecordsSurvive(rules, st, d, done[d], c);
          }
        }
        assert WithoutRetries(ds)[1..] == WithoutRetries(ds[1..]);
        RetriesChangeNothing(rules, o.state, done', ds[1..]);
      }
    }
  }
}
